/** Sums over the values of a map, taken in no particular order, as Rust's iteration over a
    `HashMap` gives them, and the ascending order in which a `BTreeMap` gives its integer keys. */
module Collections {

  /** Some key of a non-empty map. */
  ghost function Pick<K, V>(m: map<K, V>): (k: K)
    requires m != map[]
    ensures k in m
  {
    var k :| k in m; k
  }

  /** The sum of `f` over the values of `m`. */
  ghost function SumValues<K, V>(m: map<K, V>, f: V -> nat): nat
    decreases |m.Keys|
  {
    if m == map[] then 0
    else
      var k := Pick(m);
      assert |(m - {k}).Keys| < |m.Keys| by { assert (m - {k}).Keys == m.Keys - {k}; }
      f(m[k]) + SumValues(m - {k}, f)
  }

  /** The sum does not depend on which key is taken first. */
  lemma {:induction false} SumRemove<K, V>(m: map<K, V>, k: K, f: V -> nat)
    requires k in m
    ensures SumValues(m, f) == f(m[k]) + SumValues(m - {k}, f)
    decreases |m.Keys|
  {
    var j := Pick(m);
    if j != k {
      assert (m - {j}).Keys == m.Keys - {j};
      assert (m - {k}).Keys == m.Keys - {k};
      SumRemove(m - {j}, k, f);
      SumRemove(m - {k}, j, f);
      assert m - {j} - {k} == m - {k} - {j};
    }
  }

  /** Replacing or adding one entry changes the sum by that entry alone. */
  lemma SumUpdate<K, V>(m: map<K, V>, k: K, v: V, f: V -> nat)
    ensures SumValues(m[k := v], f) == SumValues(m, f) - (if k in m then f(m[k]) else 0) + f(v)
  {
    SumRemove(m[k := v], k, f);
    assert m[k := v] - {k} == m - {k};
    if k in m {
      SumRemove(m, k, f);
    } else {
      assert m - {k} == m;
    }
  }

  /** Some element of a non-empty set. */
  ghost function PickElement<T>(s: set<T>): (x: T)
    requires s != {}
    ensures x in s
  {
    var x :| x in s; x
  }

  /** The least element of a non-empty set of keys. */
  ghost function Least(s: set<int>): (m: int)
    requires s != {}
    ensures m in s && forall j :: j in s ==> m <= j
    decreases |s|
  {
    var k := PickElement(s);
    var rest := s - {k};
    assert forall j :: j in s ==> j == k || j in rest;
    if rest == {} then k
    else
      assert |rest| < |s|;
      var r := Least(rest);
      if k < r then k else r
  }

  /** The elements of `s` in ascending order, as a `BTreeMap` iterates its keys. */
  ghost function Ascending(s: set<int>): seq<int>
    decreases |s|
  {
    if s == {} then []
    else
      var m := Least(s);
      assert |s - {m}| < |s|;
      [m] + Ascending(s - {m})
  }

  /** `Ascending(s)` lists each element of `s` once ... */
  lemma {:induction false} AscendingMembers(s: set<int>)
    ensures |Ascending(s)| == |s|
    ensures forall k :: k in Ascending(s) <==> k in s
    ensures forall i :: 0 <= i < |Ascending(s)| ==> Ascending(s)[i] in s
    decreases |s|
  {
    if s != {} {
      var m := Least(s);
      var rest := s - {m};
      assert |rest| < |s|;
      AscendingMembers(rest);
      var ks := Ascending(s);
      assert ks == [m] + Ascending(rest);
      assert forall k :: k in s <==> k == m || k in rest;
      forall i | 0 <= i < |ks| ensures ks[i] in s {
        if i > 0 {
          assert ks[i] == Ascending(rest)[i - 1];
        }
      }
    }
  }

  /** ... smallest first. */
  lemma {:induction false} AscendingSorted(s: set<int>)
    ensures forall i, j :: 0 <= i < j < |Ascending(s)| ==> Ascending(s)[i] < Ascending(s)[j]
    decreases |s|
  {
    if s != {} {
      var m := Least(s);
      var rest := s - {m};
      assert |rest| < |s|;
      AscendingSorted(rest);
      AscendingMembers(rest);
      var ks := Ascending(s);
      var tail := Ascending(rest);
      assert ks == [m] + tail;
      forall i, j | 0 <= i < j < |ks| ensures ks[i] < ks[j] {
        assert ks[j] == tail[j - 1];
        if i == 0 {
          assert tail[j - 1] in rest;
        } else {
          assert ks[i] == tail[i - 1];
        }
      }
    }
  }

  /** The two together. */
  lemma AscendingFacts(s: set<int>)
    ensures |Ascending(s)| == |s|
    ensures forall k :: k in Ascending(s) <==> k in s
    ensures forall i, j :: 0 <= i < j < |Ascending(s)| ==> Ascending(s)[i] < Ascending(s)[j]
  {
    AscendingMembers(s);
    AscendingSorted(s);
  }

  /** The ascending keys of a map are its keys. */
  lemma AscendingKeys<V>(m: map<int, V>)
    ensures |Ascending(m.Keys)| == |m|
    ensures forall i :: 0 <= i < |Ascending(m.Keys)| ==> Ascending(m.Keys)[i] in m
  {
    AscendingMembers(m.Keys);
  }

  /** The values of `m` in ascending order of their keys. */
  ghost function InKeyOrder<V>(m: map<int, V>): (vs: seq<V>)
    ensures |vs| == |Ascending(m.Keys)| == |m|
    ensures forall i :: 0 <= i < |vs| ==> Ascending(m.Keys)[i] in m && vs[i] == m[Ascending(m.Keys)[i]]
  {
    AscendingKeys(m);
    var ks := Ascending(m.Keys);
    seq(|ks|, i requires 0 <= i < |ks| => m[ks[i]])
  }

  /** Iterating a `BTreeMap`: its values, smallest key first. */
  method ValuesInKeyOrder<V>(m: map<int, V>) returns (vs: seq<V>)
    ensures vs == InKeyOrder(m)
  {
    vs := [];
    var rest := m.Keys;
    ghost var done: seq<int> := [];
    while rest != {}
      invariant Ascending(m.Keys) == done + Ascending(rest)
      invariant rest <= m.Keys
      invariant |vs| == |done|
      invariant forall i :: 0 <= i < |done| ==> done[i] in m && vs[i] == m[done[i]]
      decreases |rest|
    {
      var k :| k in rest && forall j :: j in rest ==> k <= j;
      assert k == Least(rest);
      assert |rest - {k}| < |rest|;
      assert Ascending(rest) == [k] + Ascending(rest - {k});
      assert done + Ascending(rest) == (done + [k]) + Ascending(rest - {k});
      ghost var before := vs;
      vs := vs + [m[k]];
      done := done + [k];
      rest := rest - {k};
      assert forall i :: 0 <= i < |before| ==> vs[i] == before[i];
    }
    assert done == Ascending(m.Keys);
  }
}
