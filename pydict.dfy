/**
 * The dictionary and series operations of the classifier's label bookkeeping: a dict as its
 * items in insertion order, lookup, the inverting comprehension `{v: k for k, v in d.items()}`,
 * `enumerate`, and pandas' `Series.unique()`.
 */
module PyDict {
  import opened Wrappers

  /** A dict as its (key, value) items, in insertion order. */
  type Items<K, V> = seq<(K, V)>

  /** No key occurs twice: true of the items of every dict. */
  predicate DistinctKeys<K(==), V>(d: Items<K, V>)
  {
    forall i, j :: 0 <= i < j < |d| ==> d[i].0 != d[j].0
  }

  /** `d[k]`: the value stored under `k`, or `None` where Python raises KeyError. */
  function Get<K(==), V>(d: Items<K, V>, k: K): (r: Option<V>)
    ensures r.None? <==> forall i :: 0 <= i < |d| ==> d[i].0 != k
    ensures r.Some? ==> exists i :: 0 <= i < |d| && d[i] == (k, r.value)
  {
    if d == [] then None
    else if d[|d| - 1].0 == k then Some(d[|d| - 1].1)
    else Get(d[..|d| - 1], k)
  }

  /** Looking up the key of an item gives that item's value. */
  lemma {:induction false} GetOfItem<K, V>(d: Items<K, V>, i: nat)
    requires DistinctKeys(d) && i < |d|
    ensures Get(d, d[i].0) == Some(d[i].1)
  {
    if i < |d| - 1 {
      assert d[|d| - 1].0 != d[i].0;
      var init := d[..|d| - 1];
      assert init[i] == d[i];
      GetOfItem(init, i);
    }
  }

  /** `{v: k for k, v in d.items()}`: every value of `d` becomes a key; when several items share
      a value, the one inserted last wins. */
  function Invert<K, V(==,!new)>(d: Items<K, V>): (m: map<V, K>)
    ensures forall v :: v in m <==> exists i :: 0 <= i < |d| && d[i].1 == v
  {
    if d == [] then map[]
    else
      var init := Invert(d[..|d| - 1]);
      assert forall i :: 0 <= i < |d| - 1 ==> d[..|d| - 1][i] == d[i];
      init[d[|d| - 1].1 := d[|d| - 1].0]
  }

  /** The inverse maps each value to the key of the last item holding it. */
  lemma {:induction false} InvertLastWins<K, V(!new)>(d: Items<K, V>, i: nat)
    requires i < |d|
    requires forall j :: i < j < |d| ==> d[j].1 != d[i].1
    ensures d[i].1 in Invert(d) && Invert(d)[d[i].1] == d[i].0
  {
    if i < |d| - 1 {
      var init := d[..|d| - 1];
      assert init[i] == d[i];
      forall j | i < j < |init| ensures init[j].1 != init[i].1 {
        assert init[j] == d[j];
      }
      InvertLastWins(init, i);
    }
  }

  /** When no two items share a value, inverting undoes the lookup: `inv[d[k]] == k`. */
  lemma InvertRoundTrip<K, V(!new)>(d: Items<K, V>, k: K)
    requires forall i, j :: 0 <= i < j < |d| ==> d[i].1 != d[j].1
    requires Get(d, k).Some?
    ensures Get(d, k).value in Invert(d) && Invert(d)[Get(d, k).value] == k
  {
    var i :| 0 <= i < |d| && d[i] == (k, Get(d, k).value);
    InvertLastWins(d, i);
  }

  /** When no two items share a key, looking up what the inverse gives for a value leads back
      to that value: `d[inv[v]] == v`. */
  lemma InvertRoundTripValues<K, V(!new)>(d: Items<K, V>, v: V)
    requires DistinctKeys(d)
    requires v in Invert(d)
    ensures Get(d, Invert(d)[v]) == Some(v)
  {
    var i :| 0 <= i < |d| && d[i].1 == v && forall j :: i < j < |d| ==> d[j].1 != v by {
      LastIndexOfValue(d, v);
    }
    InvertLastWins(d, i);
    GetOfItem(d, i);
  }

  /** A value that occurs in the items has a last occurrence. */
  lemma {:induction false} LastIndexOfValue<K, V(!new)>(d: Items<K, V>, v: V)
    requires v in Invert(d)
    ensures exists i :: 0 <= i < |d| && d[i].1 == v && forall j :: i < j < |d| ==> d[j].1 != v
  {
    if d[|d| - 1].1 != v {
      var init := d[..|d| - 1];
      assert v in Invert(init) by {
        var i :| 0 <= i < |d| && d[i].1 == v;
        assert init[i] == d[i];
      }
      LastIndexOfValue(init, v);
      var i :| 0 <= i < |init| && init[i].1 == v && forall j :: i < j < |init| ==> init[j].1 != v;
      assert d[i] == init[i];
      assert forall j :: i < j < |d| ==> d[j].1 != v by {
        assert forall j :: i < j < |init| ==> d[j] == init[j];
      }
    } else {
      assert d[|d| - 1].1 == v;
    }
  }

  /** `enumerate(u)` as the items of `{x: i for i, x in enumerate(u)}`: each element paired with its position. */
  function Enumerate<T>(u: seq<T>): (d: Items<T, int>)
    ensures |d| == |u| && forall i :: 0 <= i < |d| ==> d[i] == (u[i], i)
  {
    seq(|u|, i requires 0 <= i < |u| => (u[i], i))
  }

  /** The position of the first occurrence of `x` in `s`. */
  function FirstIndex<T(==)>(s: seq<T>, x: T): (r: nat)
    requires x in s
    ensures r < |s| && s[r] == x && forall k :: 0 <= k < r ==> s[k] != x
  {
    if s[0] == x then 0 else 1 + FirstIndex(s[1..], x)
  }

  /** `Series.unique()`: the distinct values of `s`, each once, in order of first occurrence. */
  function Unique<T(==,!new)>(s: seq<T>): (r: seq<T>)
    ensures forall i, j :: 0 <= i < j < |r| ==> r[i] != r[j]
    ensures forall x :: x in r <==> x in s
  {
    if s == [] then []
    else
      var u := Unique(s[..|s| - 1]);
      assert forall x :: x in s <==> x in s[..|s| - 1] || x == s[|s| - 1];
      if s[|s| - 1] in u then u else u + [s[|s| - 1]]
  }

  /** The order of `Unique` is the order of first occurrence. */
  lemma {:induction false} UniqueFirstOccurrence<T(!new)>(s: seq<T>)
    ensures forall i, j :: 0 <= i < j < |Unique(s)| ==> FirstIndex(s, Unique(s)[i]) < FirstIndex(s, Unique(s)[j])
  {
    if s != [] {
      var init := s[..|s| - 1];
      var u := Unique(init);
      UniqueFirstOccurrence(init);
      forall x | x in init ensures FirstIndex(s, x) == FirstIndex(init, x) {
        var a, b := FirstIndex(s, x), FirstIndex(init, x);
        assert s[b] == init[b];
        assert a <= b;
        assert init[a] == s[a];
      }
      if s[|s| - 1] !in u {
        var r := u + [s[|s| - 1]];
        assert r[|u|] == s[|s| - 1];
        assert forall i :: 0 <= i < |u| ==> r[i] == u[i] && u[i] in init && u[i] in s;
        forall i | 0 <= i < |u| ensures FirstIndex(s, r[i]) < FirstIndex(s, r[|u|]) {
          assert r[i] == u[i] && u[i] in init;
          assert s[|s| - 1] !in init;
        }
      }
    }
  }

  /** A sequence without repetitions has as many elements as its set of elements. */
  lemma {:induction false} DistinctCardinality<T>(r: seq<T>)
    requires forall i, j :: 0 <= i < j < |r| ==> r[i] != r[j]
    ensures |set x | x in r| == |r|
  {
    if r != [] {
      var init := r[..|r| - 1];
      DistinctCardinality(init);
      assert (set x | x in r) == (set x | x in init) + {r[|r| - 1]};
      assert r[|r| - 1] !in init;
    }
  }
}
