/** A list comprehension with a filter, `[f(x) for x in s if keep(x)]`, written as one
    function that answers `None` for the elements to drop. */
module Seqs {
  import opened Wrappers

  function FilterMap<A, B>(s: seq<A>, f: A -> Option<B>): (r: seq<B>)
    ensures |r| <= |s|
  {
    if s == [] then []
    else
      var rest := FilterMap(s[..|s| - 1], f);
      match f(s[|s| - 1])
      case Some(y) => rest + [y]
      case None => rest
  }

  /** The result is an order-preserving selection of exactly the elements `f` keeps:
      `r[j]` comes from `s[idx[j]]`, the indices increase, and every kept index occurs. */
  lemma {:induction false} FilterMapSelects<A, B>(s: seq<A>, f: A -> Option<B>) returns (idx: seq<nat>)
    ensures |idx| == |FilterMap(s, f)|
    ensures forall j :: 0 <= j < |idx| ==> idx[j] < |s| && f(s[idx[j]]) == Some(FilterMap(s, f)[j])
    ensures forall j, j' :: 0 <= j < j' < |idx| ==> idx[j] < idx[j']
    ensures forall k :: 0 <= k < |s| && f(s[k]).Some? ==> k in idx
  {
    if s == [] {
      idx := [];
    } else {
      var init := s[..|s| - 1];
      var prev := FilterMapSelects(init, f);
      assert forall j :: 0 <= j < |prev| ==> s[prev[j]] == init[prev[j]];
      match f(s[|s| - 1])
      case Some(y) =>
        idx := prev + [|s| - 1];
      case None =>
        idx := prev;
    }
  }

  /** Nothing is dropped when `f` keeps every element, and nothing is kept when it keeps none. */
  lemma {:induction false} FilterMapExtremes<A, B>(s: seq<A>, f: A -> Option<B>)
    ensures (forall k :: 0 <= k < |s| ==> f(s[k]).Some?) ==> |FilterMap(s, f)| == |s|
    ensures (forall k :: 0 <= k < |s| ==> f(s[k]).None?) ==> FilterMap(s, f) == []
  {
    if s != [] {
      FilterMapExtremes(s[..|s| - 1], f);
    }
  }

  /** Concatenation is associative; stated once so that appending to a sequence that is itself
      a concatenation needs no element-wise reasoning. */
  lemma AppendAssoc<T>(a: seq<T>, b: seq<T>, c: seq<T>)
    ensures (a + b) + c == a + (b + c)
  {
  }

  /** Appending nothing leaves a sequence as it is. */
  lemma AppendNil<T>(a: seq<T>)
    ensures a + [] == a
  {
  }
}
