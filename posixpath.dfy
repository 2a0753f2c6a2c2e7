/** `os.path.join` as the POSIX implementation (`posixpath.join`) defines it on strings. */
module PosixPath {

  predicate IsAbsolute(p: string)
  {
    p != [] && p[0] == '/'
  }

  predicate EndsWithSep(p: string)
  {
    p != [] && p[|p| - 1] == '/'
  }

  /** The separator `os.path.join` puts after `a`: none when `a` is empty or already ends with `/`. */
  function Separator(a: string): string
  {
    if a == [] || EndsWithSep(a) then "" else "/"
  }

  /** `os.path.join(a, b)`: an absolute `b` replaces `a`; otherwise `b` is appended to `a`
      after the separator. */
  function Join(a: string, b: string): string
  {
    if IsAbsolute(b) then b else a + Separator(a) + b
  }

  /** A relative name is appended: the joined path is the directory, at most one `/`, then the name. */
  lemma JoinRelative(a: string, b: string)
    requires !IsAbsolute(b)
    ensures |Join(a, b)| == |a| + |Separator(a)| + |b|
    ensures Join(a, b)[..|a|] == a && Join(a, b)[|a| + |Separator(a)|..] == b
    ensures a != [] && !EndsWithSep(a) ==> Join(a, b) == a + "/" + b
    ensures a == [] || EndsWithSep(a) ==> Join(a, b) == a + b
  {
    var r := Join(a, b);
    assert r == a + (Separator(a) + b);
  }

  /** Joining two relative names onto the same directory gives the same path only for the same name. */
  lemma JoinCancelLeft(a: string, b1: string, b2: string)
    requires !IsAbsolute(b1) && !IsAbsolute(b2)
    requires Join(a, b1) == Join(a, b2)
    ensures b1 == b2
  {
    JoinRelative(a, b1);
    JoinRelative(a, b2);
  }
}
