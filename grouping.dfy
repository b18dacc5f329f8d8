/** Grouping a list into a map of buckets, each bucket keeping the input order: the
    `entry(key).or_default().push(item)` loop the fetch service runs over fetched articles. */
module Grouping {
  import opened Collections

  /** The items of `xs` whose key is `k`, in order. */
  function Select<A, K(==)>(xs: seq<A>, key: A -> K, k: K): seq<A> {
    if xs == [] then []
    else Select(xs[..|xs| - 1], key, k) + (if key(xs[|xs| - 1]) == k then [xs[|xs| - 1]] else [])
  }

  /** The buckets after pushing the items of `xs` one by one. */
  function GroupBy<A, K(==)>(xs: seq<A>, key: A -> K): map<K, seq<A>> {
    if xs == [] then map[]
    else
      var m := GroupBy(xs[..|xs| - 1], key);
      var x := xs[|xs| - 1];
      m[key(x) := (if key(x) in m then m[key(x)] else []) + [x]]
  }

  /** A key has a bucket exactly when some item has that key. */
  lemma {:induction false} GroupByKeys<A, K>(xs: seq<A>, key: A -> K)
    ensures forall k :: k in GroupBy(xs, key) ==> exists i :: 0 <= i < |xs| && key(xs[i]) == k
    ensures forall i :: 0 <= i < |xs| ==> key(xs[i]) in GroupBy(xs, key)
  {
    if xs != [] {
      var init := xs[..|xs| - 1];
      GroupByKeys(init, key);
      forall k | k in GroupBy(xs, key) ensures exists i :: 0 <= i < |xs| && key(xs[i]) == k {
        if k != key(xs[|xs| - 1]) {
          var i :| 0 <= i < |init| && key(init[i]) == k;
          assert xs[i] == init[i];
        }
      }
      forall i | 0 <= i < |xs| ensures key(xs[i]) in GroupBy(xs, key) {
        if i < |init| { assert init[i] == xs[i]; }
      }
    }
  }

  /** Each bucket holds exactly the items with its key, in their input order. */
  lemma {:induction false} GroupByBuckets<A, K>(xs: seq<A>, key: A -> K)
    ensures forall k :: k in GroupBy(xs, key) ==> GroupBy(xs, key)[k] == Select(xs, key, k)
  {
    if xs != [] {
      var init := xs[..|xs| - 1];
      GroupByBuckets(init, key);
      GroupByKeys(init, key);
      var k := key(xs[|xs| - 1]);
      if k !in GroupBy(init, key) {
        SelectEmpty(init, key, k);
      }
    }
  }

  lemma {:induction false} SelectEmpty<A, K>(xs: seq<A>, key: A -> K, k: K)
    requires forall i :: 0 <= i < |xs| ==> key(xs[i]) != k
    ensures Select(xs, key, k) == []
  {
    if xs != [] {
      SelectEmpty(xs[..|xs| - 1], key, k);
    }
  }

  /** No bucket is empty. */
  lemma {:induction false} NoEmptyBucket<A, K>(xs: seq<A>, key: A -> K)
    ensures forall k :: k in GroupBy(xs, key) ==> |GroupBy(xs, key)[k]| > 0
  {
    if xs != [] {
      NoEmptyBucket(xs[..|xs| - 1], key);
    }
  }

  /** Every item lands in the bucket of its own key and nowhere else. */
  lemma {:induction false} SelectMembers<A, K>(xs: seq<A>, key: A -> K, k: K)
    ensures forall x :: x in Select(xs, key, k) <==> x in xs && key(x) == k
  {
    if xs != [] {
      var init := xs[..|xs| - 1];
      SelectMembers(init, key, k);
      assert xs == init + [xs[|xs| - 1]];
    }
  }

  function BucketSize<A>(b: seq<A>): nat { |b| }

  /** Grouping loses and duplicates nothing: the bucket sizes add up to the number of items. */
  lemma {:induction false} GroupByCount<A, K>(xs: seq<A>, key: A -> K)
    ensures SumValues(GroupBy(xs, key), BucketSize) == |xs|
  {
    if xs != [] {
      var init := xs[..|xs| - 1];
      var m := GroupBy(init, key);
      var x := xs[|xs| - 1];
      GroupByCount(init, key);
      SumUpdate(m, key(x), (if key(x) in m then m[key(x)] else []) + [x], BucketSize);
    }
  }

  /** The grouping loop: each item is pushed onto the bucket of its key, creating the bucket first
      when it is the key's first item. */
  method GroupByKey<A, K(==)>(xs: seq<A>, key: A -> K) returns (buckets: map<K, seq<A>>)
    ensures buckets == GroupBy(xs, key)
  {
    buckets := map[];
    for i := 0 to |xs|
      invariant buckets == GroupBy(xs[..i], key)
    {
      assert xs[..i + 1][..i] == xs[..i];
      var k := key(xs[i]);
      var bucket := if k in buckets then buckets[k] else [];
      buckets := buckets[k := bucket + [xs[i]]];
    }
    assert xs[..|xs|] == xs;
  }
}
