/**
 * The few Python string built-ins the harvester and the classifier rely on:
 * `str.isspace`, `str.strip`, `sep.join`, `str(n)` for a natural number,
 * `int(text)` and the ASCII part of `str.lower`.
 */
module PyStr {
  import opened Wrappers

  /** The characters Python's `str.isspace` (and so `str.strip()`) treat as whitespace. */
  predicate IsSpace(c: char)
  {
    || ('\t' <= c <= '\r')                // tab, line feed, vertical tab, form feed, carriage return
    || ('\U{001C}' <= c <= ' ')            // the four separators U+001C..U+001F, and space
    || c == '\U{0085}' || c == '\U{00A0}' || c == '\U{1680}'
    || ('\U{2000}' <= c <= '\U{200A}')
    || c == '\U{2028}' || c == '\U{2029}' || c == '\U{202F}' || c == '\U{205F}' || c == '\U{3000}'
  }

  /** The whitespace `int()` skips around a number. `int()` turns every non-ASCII space into ' '
      and then skips ASCII whitespace only, so the four ASCII separators U+001C..U+001F, which
      `str.isspace` accepts, stay in the text and make it invalid. */
  predicate IntSpace(c: char)
  {
    IsSpace(c) && !('\U{001C}' <= c <= '\U{001F}')
  }

  /** True of a string with no whitespace at either end: a fixed point of `Strip`. */
  predicate Trimmed(s: string)
  {
    s == [] || (!IsSpace(s[0]) && !IsSpace(s[|s| - 1]))
  }

  /** The suffix of `s` left once the leading characters of class `ws` are removed
      (`s.lstrip()` for `ws == IsSpace`). */
  function StripLeft(s: string, ws: char -> bool): (r: string)
    ensures |r| <= |s| && r == s[|s| - |r|..]
    ensures forall k :: 0 <= k < |s| - |r| ==> ws(s[k])
    ensures r == [] || !ws(r[0])
  {
    if s != [] && ws(s[0]) then StripLeft(s[1..], ws) else s
  }

  /** The prefix of `s` left once the trailing characters of class `ws` are removed
      (`s.rstrip()` for `ws == IsSpace`). */
  function StripRight(s: string, ws: char -> bool): (r: string)
    ensures |r| <= |s| && r == s[..|r|]
    ensures forall k :: |r| <= k < |s| ==> ws(s[k])
    ensures r == [] || !ws(r[|r| - 1])
  {
    if s != [] && ws(s[|s| - 1]) then StripRight(s[..|s| - 1], ws) else s
  }

  /** `s.strip()`. */
  function Strip(s: string): string
  {
    StripRight(StripLeft(s, IsSpace), IsSpace)
  }

  /** The text `int()` parses once the whitespace it skips is removed from both ends. */
  function IntStrip(s: string): (r: string)
    ensures forall c :: c in r ==> c in s
    ensures r == [] || (!IntSpace(r[0]) && !IntSpace(r[|r| - 1]))
  {
    StripRight(StripLeft(s, IntSpace), IntSpace)
  }

  /** No whitespace is left at either end after `Strip`. */
  lemma StripResultTrimmed(s: string)
    ensures Trimmed(Strip(s))
  {
  }

  /** `Strip(s)` is the slice `s[i..j]`, and everything cut off on either side is whitespace. */
  lemma StripIsTrim(s: string) returns (i: nat, j: nat)
    ensures i <= j <= |s| && Strip(s) == s[i..j]
    ensures forall k :: 0 <= k < i ==> IsSpace(s[k])
    ensures forall k :: j <= k < |s| ==> IsSpace(s[k])
  {
    var l := StripLeft(s, IsSpace);
    var r := StripRight(l, IsSpace);
    i := |s| - |l|;
    j := i + |r|;
    assert r == l[..|r|];
    assert l == s[i..];
    forall k | j <= k < |s| ensures IsSpace(s[k]) {
      assert s[k] == l[k - i];
    }
  }

  /** A string with no whitespace at its ends is left unchanged by `Strip`. */
  lemma StripTrimmed(s: string)
    requires Trimmed(s)
    ensures Strip(s) == s
  {
    assert StripLeft(s, IsSpace) == s;
  }

  /** `Strip` is idempotent. */
  lemma StripIdempotent(s: string)
    ensures Strip(Strip(s)) == Strip(s)
  {
    StripTrimmed(Strip(s));
  }

  /** `sep.join(parts)`: the parts in order, with `sep` between neighbours. */
  function Join(sep: string, parts: seq<string>): string
  {
    if parts == [] then ""
    else if |parts| == 1 then parts[0]
    else Join(sep, parts[..|parts| - 1]) + sep + parts[|parts| - 1]
  }

  /** A join of non-empty parts starts with the first part's first character,
      ends with the last part's last character, and is empty exactly when there are no parts. */
  lemma {:induction false} JoinEnds(sep: string, parts: seq<string>)
    requires forall k :: 0 <= k < |parts| ==> parts[k] != []
    ensures Join(sep, parts) == [] <==> parts == []
    ensures parts != [] ==> Join(sep, parts)[0] == parts[0][0]
    ensures parts != [] ==> Join(sep, parts)[|Join(sep, parts)| - 1] == parts[|parts| - 1][|parts[|parts| - 1]| - 1]
  {
    if |parts| > 1 {
      var init := parts[..|parts| - 1];
      JoinEnds(sep, init);
      assert init[0] == parts[0];
    }
  }

  /** Joining parts that are each non-empty and trimmed, with a single space, gives a trimmed string. */
  lemma JoinTrimmed(parts: seq<string>)
    requires forall k :: 0 <= k < |parts| ==> parts[k] != [] && Trimmed(parts[k])
    ensures Trimmed(Join(" ", parts))
  {
    JoinEnds(" ", parts);
  }

  predicate IsDigit(c: char)
  {
    '0' <= c <= '9'
  }

  function DigitChar(d: nat): (c: char)
    requires d < 10
    ensures IsDigit(c) && c as int - '0' as int == d
  {
    ('0' as int + d) as char
  }

  /** `str(n)` for a natural number: its decimal digits, without leading zeros. */
  function NatToString(n: nat): (s: string)
    ensures s != [] && forall k :: 0 <= k < |s| ==> IsDigit(s[k])
  {
    if n < 10 then [DigitChar(n)] else NatToString(n / 10) + [DigitChar(n % 10)]
  }

  /** The digit groups `int()` accepts: decimal digits, with single underscores between digits. */
  predicate ValidDigits(t: string)
  {
    && |t| > 0 && IsDigit(t[0]) && IsDigit(t[|t| - 1])
    && (forall k :: 0 <= k < |t| ==> IsDigit(t[k]) || t[k] == '_')
    && (forall k :: 0 <= k < |t| - 1 ==> !(t[k] == '_' && t[k + 1] == '_'))
  }

  /** The value of a digit string, with underscores skipped. */
  function DigitsValue(t: string): nat
    requires forall k :: 0 <= k < |t| ==> IsDigit(t[k]) || t[k] == '_'
  {
    if t == [] then 0
    else if t[|t| - 1] == '_' then DigitsValue(t[..|t| - 1])
    else
      assert IsDigit(t[|t| - 1]);
      10 * DigitsValue(t[..|t| - 1]) + (t[|t| - 1] as int - '0' as int)
  }

  /** The number of decimal digits in a digit string, underscores not counted. */
  function DigitCount(t: string): (n: nat)
    ensures n <= |t|
  {
    if t == [] then 0 else DigitCount(t[..|t| - 1]) + (if IsDigit(t[|t| - 1]) then 1 else 0)
  }

  /** The most digits `int()` converts from a decimal string (`sys.int_info.default_max_str_digits`). */
  const MaxStrDigits: nat := 4300

  /** `int(s)`: surrounding whitespace stripped as `int()` strips it, an optional sign, then
      digits; `None` where Python raises ValueError, which includes a number of more than
      4300 digits. */
  function ParseInt(s: string): (r: Option<int>)
    ensures r.Some? ==> IntStrip(s) != [] && forall c :: c in IntStrip(s) ==> IsDigit(c) || c in "+-_"
  {
    ParseSigned(IntStrip(s))
  }

  /** `int()` on text whose surrounding whitespace has already been removed. */
  function ParseSigned(t: string): Option<int>
  {
    if t != [] && (t[0] == '+' || t[0] == '-') then
      if ValidDigits(t[1..]) && DigitCount(t[1..]) <= MaxStrDigits then
        var v: int := DigitsValue(t[1..]);
        Some(if t[0] == '-' then -v else v)
      else None
    else if ValidDigits(t) && DigitCount(t) <= MaxStrDigits then Some(DigitsValue(t))
    else None
  }

  lemma {:induction false} DigitsValueOfNat(n: nat)
    ensures DigitsValue(NatToString(n)) == n
  {
    var s := NatToString(n);
    if n >= 10 {
      DigitsValueOfNat(n / 10);
      assert s[..|s| - 1] == NatToString(n / 10);
    }
  }

  /** Every character of a plain decimal string counts as a digit. */
  lemma {:induction false} DigitCountOfDigits(t: string)
    requires forall k :: 0 <= k < |t| ==> IsDigit(t[k])
    ensures DigitCount(t) == |t|
  {
    if t != [] {
      DigitCountOfDigits(t[..|t| - 1]);
    }
  }

  /** `int()` finds no whitespace to skip around a string of decimal digits. */
  lemma IntStripDigits(s: string)
    requires s != [] && forall k :: 0 <= k < |s| ==> IsDigit(s[k])
    ensures IntStrip(s) == s
  {
    assert !IntSpace(s[0]) && !IntSpace(s[|s| - 1]);
    assert StripLeft(s, IntSpace) == s;
  }

  /** A non-empty string of decimal digits is a digit string `int()` accepts, without a sign. */
  lemma ValidPlainDigits(s: string)
    requires s != [] && forall k :: 0 <= k < |s| ==> IsDigit(s[k])
    ensures ValidDigits(s) && s[0] != '+' && s[0] != '-'
  {
  }

  /** `int(str(n)) == n` for every number of at most 4300 digits; a longer one is refused. */
  lemma ParseNatToString(n: nat)
    ensures ParseInt(NatToString(n)) == if |NatToString(n)| <= MaxStrDigits then Some(n) else None
  {
    var s := NatToString(n);
    IntStripDigits(s);
    ValidPlainDigits(s);
    DigitCountOfDigits(s);
    DigitsValueOfNat(n);
    assert ParseInt(s) == ParseSigned(s);
  }

  /** Leading characters of class `ws` in front of a string that does not start with one are all
      `StripLeft` removes. */
  lemma {:induction false} StripLeftPadding(ws: char -> bool, pad: string, s: string)
    requires forall k :: 0 <= k < |pad| ==> ws(pad[k])
    requires s == [] || !ws(s[0])
    ensures StripLeft(pad + s, ws) == s
  {
    if pad != [] {
      assert (pad + s)[1..] == pad[1..] + s;
      StripLeftPadding(ws, pad[1..], s);
    }
  }

  /** Trailing characters of class `ws` after a string that does not end with one are all
      `StripRight` removes. */
  lemma {:induction false} StripRightPadding(ws: char -> bool, s: string, pad: string)
    requires forall k :: 0 <= k < |pad| ==> ws(pad[k])
    requires s == [] || !ws(s[|s| - 1])
    ensures StripRight(s + pad, ws) == s
  {
    if pad != [] {
      assert (s + pad)[..|s + pad| - 1] == s + pad[..|pad| - 1];
      StripRightPadding(ws, s, pad[..|pad| - 1]);
    }
  }

  /** Removing the whitespace `int()` skips from padded text leaves the text, when the text
      neither starts nor ends with such whitespace. */
  lemma IntStripPadded(before: string, d: string, after: string)
    requires forall k :: 0 <= k < |before| ==> IntSpace(before[k])
    requires forall k :: 0 <= k < |after| ==> IntSpace(after[k])
    requires d != [] && !IntSpace(d[0]) && !IntSpace(d[|d| - 1])
    ensures IntStrip(before + d + after) == d
  {
    assert before + d + after == before + (d + after);
    assert (d + after)[0] == d[0];
    StripLeftPadding(IntSpace, before, d + after);
    StripRightPadding(IntSpace, d, after);
  }

  /** `int(" " + str(n) + "\n") == n`: the whitespace `int()` skips around the digits does not
      matter (a number of more than 4300 digits is still refused). */
  lemma ParsePaddedNat(n: nat, before: string, after: string)
    requires forall k :: 0 <= k < |before| ==> IntSpace(before[k])
    requires forall k :: 0 <= k < |after| ==> IntSpace(after[k])
    ensures ParseInt(before + NatToString(n) + after) ==
            if |NatToString(n)| <= MaxStrDigits then Some(n) else None
  {
    var d := NatToString(n);
    IntStripPadded(before, d, after);
    IntStripDigits(d);
    ParseNatToString(n);
  }

  /** Where `str.strip()` and `int()` part: `str.strip()` removes a leading U+001C... */
  lemma StripRemovesSeparator()
    ensures Strip(['\U{001C}', '5']) == "5"
  {
    var t: string := ['\U{001C}', '5'];
    assert StripLeft(t, IsSpace) == "5" by {
      assert t[1..] == "5";
    }
    assert StripRight("5", IsSpace) == "5";
  }

  /** ...but `int()` keeps it and refuses the text: `int("\x1c5")` raises ValueError. */
  lemma ParseIntRefusesSeparator()
    ensures ParseInt(['\U{001C}', '5']) == None
  {
    var t: string := ['\U{001C}', '5'];
    assert IntStrip(t) == t by {
      assert StripLeft(t, IntSpace) == t;
    }
    assert ParseSigned(t) == None;
  }

  /** Distinct natural numbers have distinct decimal strings. */
  lemma NatToStringInjective(m: nat, n: nat)
    requires NatToString(m) == NatToString(n)
    ensures m == n
  {
    DigitsValueOfNat(m);
    DigitsValueOfNat(n);
  }

  /** A decimal number followed by a non-digit marker can be read back unambiguously:
      `str(m) + c + a == str(n) + c + b` only when `m == n` and `a == b`. */
  lemma DigitsThenMarker(m: nat, n: nat, c: char, a: string, b: string)
    requires !IsDigit(c)
    requires NatToString(m) + [c] + a == NatToString(n) + [c] + b
    ensures m == n && a == b
  {
    var sm, sn := NatToString(m), NatToString(n);
    var x := sm + [c] + a;
    var y := sn + [c] + b;
    assert x[|sm|] == c && y[|sn|] == c;
    assert forall k :: 0 <= k < |sm| ==> x[k] == sm[k];
    assert forall k :: 0 <= k < |sn| ==> y[k] == sn[k];
    assert |sm| == |sn|;
    assert sm == x[..|sm|] == sn;
    NatToStringInjective(m, n);
    assert a == x[|sm| + 1..] == b;
  }

  /** The ASCII part of `str.lower()` on one character. */
  function LowerChar(c: char): (d: char)
    ensures 'A' <= c <= 'Z' ==> d as int == c as int + 32
    ensures !('A' <= c <= 'Z') ==> d == c
  {
    if 'A' <= c <= 'Z' then (c as int + 32) as char else c
  }

  /** `s.lower()` restricted to ASCII letters. The only other characters whose lower case
      contains an ASCII letter are U+212A KELVIN SIGN, which becomes 'k', and U+0130, which
      becomes 'i' followed by a combining dot; so comparing the result with an ASCII word
      without 'k' or 'i' gives the same answer as Python. */
  function LowerAscii(s: string): (r: string)
    ensures |r| == |s| && forall k :: 0 <= k < |s| ==> r[k] == LowerChar(s[k])
  {
    seq(|s|, k requires 0 <= k < |s| => LowerChar(s[k]))
  }
}
