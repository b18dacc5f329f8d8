/** Query-string assembly shared by the three provider clients. Each client's `build_url` walks its
    `(key, Option<value>)` list, appends `key=trim(value)` for every present value that is not blank
    after trimming, and finally appends the API key under the client's own parameter name. A URL is
    kept as its base, its endpoint and its list of pairs; percent-encoding and `Url::join` are not
    modelled. */
module QueryPairs {
  import opened Wrappers
  import opened Text

  type Pair = (string, string)
  type Candidate = (string, Option<string>)

  datatype Url = Url(base: string, endpoint: string, query: seq<Pair>)

  /** A candidate that `build_url` emits: its value is present and not blank after trimming. */
  predicate Emitted(c: Candidate) {
    c.1.Some? && Trim(c.1.value) != []
  }

  /** The pairs `build_url` emits for `params`, before the API key. */
  function Kept(params: seq<Candidate>): seq<Pair>
  {
    if params == [] then []
    else
      var last := params[|params| - 1];
      Kept(params[..|params| - 1]) + (if Emitted(last) then [(last.0, Trim(last.1.value))] else [])
  }

  /** The positions of the emitted candidates, in increasing order. */
  function KeptIndices(params: seq<Candidate>): seq<nat>
  {
    if params == [] then []
    else KeptIndices(params[..|params| - 1]) + (if Emitted(params[|params| - 1]) then [|params| - 1] else [])
  }

  lemma {:induction false} KeptLength(params: seq<Candidate>)
    ensures |Kept(params)| == |KeptIndices(params)|
  {
    if params != [] { KeptLength(params[..|params| - 1]); }
  }

  lemma {:induction false} KeptIndicesIncreasing(params: seq<Candidate>)
    ensures forall j :: 0 <= j < |KeptIndices(params)| ==> KeptIndices(params)[j] < |params|
    ensures forall j, k :: 0 <= j < k < |KeptIndices(params)| ==> KeptIndices(params)[j] < KeptIndices(params)[k]
  {
    if params != [] { KeptIndicesIncreasing(params[..|params| - 1]); }
  }

  lemma {:induction false} KeptIndexOf(params: seq<Candidate>, i: int)
    requires 0 <= i < |params|
    ensures i in KeptIndices(params) <==> Emitted(params[i])
  {
    var init := params[..|params| - 1];
    var last := |params| - 1;
    var ki := KeptIndices(init);
    var added := if Emitted(params[last]) then [last] else [];
    assert KeptIndices(params) == ki + added;
    if i < last {
      KeptIndexOf(init, i);
      assert init[i] == params[i];
      assert i !in added;
    } else {
      assert last !in ki by {
        KeptIndicesIncreasing(init);
      }
    }
  }

  lemma KeptIndicesComplete(params: seq<Candidate>)
    ensures forall i :: 0 <= i < |params| ==> (i in KeptIndices(params) <==> Emitted(params[i]))
  {
    forall i | 0 <= i < |params| ensures (i in KeptIndices(params) <==> Emitted(params[i])) {
      KeptIndexOf(params, i);
    }
  }

  lemma {:induction false} KeptAt(params: seq<Candidate>)
    ensures |Kept(params)| == |KeptIndices(params)|
    ensures forall j :: 0 <= j < |KeptIndices(params)| ==>
      && KeptIndices(params)[j] < |params|
      && Emitted(params[KeptIndices(params)[j]])
      && Kept(params)[j] == (params[KeptIndices(params)[j]].0, Trim(params[KeptIndices(params)[j]].1.value))
  {
    KeptLength(params);
    KeptIndicesIncreasing(params);
    if params != [] {
      var init := params[..|params| - 1];
      KeptAt(init);
      KeptIndicesIncreasing(init);
      assert forall i :: 0 <= i < |init| ==> init[i] == params[i];
    }
  }

  /** `Kept` in full: the j-th emitted pair is the key and the trimmed value of the j-th candidate that
      is present and not blank, the candidates are taken in their given order, and every such
      candidate is taken. */
  lemma KeptExactly(params: seq<Candidate>)
    ensures |Kept(params)| == |KeptIndices(params)|
    ensures forall j, k :: 0 <= j < k < |KeptIndices(params)| ==> KeptIndices(params)[j] < KeptIndices(params)[k]
    ensures forall i :: 0 <= i < |params| ==> (i in KeptIndices(params) <==> Emitted(params[i]))
    ensures forall j :: 0 <= j < |KeptIndices(params)| ==>
      && KeptIndices(params)[j] < |params|
      && Emitted(params[KeptIndices(params)[j]])
      && Kept(params)[j] == (params[KeptIndices(params)[j]].0, Trim(params[KeptIndices(params)[j]].1.value))
  {
    KeptIndicesIncreasing(params);
    KeptIndicesComplete(params);
    KeptAt(params);
  }

  /** Emitting one more candidate extends the emitted pairs by at most that candidate. */
  lemma KeptSnoc(params: seq<Candidate>, c: Candidate)
    ensures Kept(params + [c]) == Kept(params) + (if Emitted(c) then [(c.0, Trim(c.1.value))] else [])
  {
    assert (params + [c])[..|params|] == params;
  }

  /** Candidates are filtered independently of one another. */
  lemma {:induction false} KeptAppend(a: seq<Candidate>, b: seq<Candidate>)
    ensures Kept(a + b) == Kept(a) + Kept(b)
  {
    if b == [] {
      assert a + b == a;
    } else {
      var init, last := b[..|b| - 1], b[|b| - 1];
      assert a + b == (a + init) + [last];
      assert b == init + [last];
      KeptAppend(a, init);
      KeptSnoc(a + init, last);
      KeptSnoc(init, last);
    }
  }

  /** A number placed last among the candidates is the last pair emitted. */
  lemma LastNumberSent(init: seq<Candidate>, key: string, n: int)
    ensures var k := Kept(init + [(key, DecimalOf(Some(n)))]);
      |k| > 0 && k[|k| - 1] == (key, IntToDecimal(n))
  {
    NumberAlwaysEmitted(key, n);
    KeptSnoc(init, (key, DecimalOf(Some(n))));
  }

  /** Every emitted value is trimmed and not empty. */
  lemma KeptValuesTrimmed(params: seq<Candidate>)
    ensures forall j :: 0 <= j < |Kept(params)| ==> Kept(params)[j].1 != [] && IsTrimmed(Kept(params)[j].1)
  {
    KeptExactly(params);
  }

  /** Keys of a pair list. */
  function Keys(pairs: seq<Pair>): seq<string> {
    if pairs == [] then [] else Keys(pairs[..|pairs| - 1]) + [pairs[|pairs| - 1].0]
  }

  function CandidateKeys(params: seq<Candidate>): seq<string> {
    if params == [] then [] else CandidateKeys(params[..|params| - 1]) + [params[|params| - 1].0]
  }

  /** How many pairs carry the given key. */
  function CountKey(pairs: seq<Pair>, key: string): nat {
    if pairs == [] then 0
    else CountKey(pairs[..|pairs| - 1], key) + (if pairs[|pairs| - 1].0 == key then 1 else 0)
  }

  /** An emitted key is always one of the candidate keys. */
  lemma {:induction false} KeptKeysFromCandidates(params: seq<Candidate>, key: string)
    requires key !in CandidateKeys(params)
    ensures CountKey(Kept(params), key) == 0
  {
    if params != [] {
      var init := params[..|params| - 1];
      assert CandidateKeys(params) == CandidateKeys(init) + [params[|params| - 1].0];
      KeptKeysFromCandidates(init, key);
      CountKeyAppend(Kept(init), if Emitted(params[|params| - 1]) then [(params[|params| - 1].0, Trim(params[|params| - 1].1.value))] else [], key);
    }
  }

  lemma {:induction false} CountKeyAppend(a: seq<Pair>, b: seq<Pair>, key: string)
    ensures CountKey(a + b, key) == CountKey(a, key) + CountKey(b, key)
  {
    if b != [] {
      assert (a + b)[..|a + b| - 1] == a + b[..|b| - 1];
      CountKeyAppend(a, b[..|b| - 1], key);
    } else {
      assert a + b == a;
    }
  }

  /** A candidate with a blank or missing value is never sent: when it is the only candidate with
      its key, the key does not appear in the emitted pairs. */
  lemma {:induction false} BlankNeverSent(params: seq<Candidate>, i: nat)
    requires i < |params| && !Emitted(params[i])
    requires forall j :: 0 <= j < |params| && j != i ==> params[j].0 != params[i].0
    ensures CountKey(Kept(params), params[i].0) == 0
  {
    var init := params[..|params| - 1];
    var last := params[|params| - 1];
    if i == |params| - 1 {
      assert params[i].0 !in CandidateKeys(init) by {
        CandidateKeysAt(init);
      }
      KeptKeysFromCandidates(init, params[i].0);
      CountKeyAppend(Kept(init), [], params[i].0);
    } else {
      assert init[i] == params[i];
      BlankNeverSent(init, i);
      CountKeyAppend(Kept(init), if Emitted(last) then [(last.0, Trim(last.1.value))] else [], params[i].0);
    }
  }

  lemma {:induction false} CandidateKeysAt(params: seq<Candidate>)
    ensures |CandidateKeys(params)| == |params|
    ensures forall i :: 0 <= i < |params| ==> CandidateKeys(params)[i] == params[i].0
  {
    if params != [] { CandidateKeysAt(params[..|params| - 1]); }
  }

  /** The loop of `build_url`: filter and trim the candidates in order, then append the API key. */
  method BuildFilteredQuery(params: seq<Candidate>, keyName: string, key: string) returns (query: seq<Pair>)
    ensures query == Kept(params) + [(keyName, key)]
  {
    query := [];
    for i := 0 to |params|
      invariant query == Kept(params[..i])
    {
      assert params[..i + 1][..i] == params[..i];
      var (k, v) := params[i];
      if v.Some? {
        var trimmed := Trim(v.value);
        if trimmed != [] {
          query := query + [(k, trimmed)];
        }
      }
    }
    assert params[..|params|] == params;
    query := query + [(keyName, key)];
  }

  /** The API key is sent exactly once, as the last pair, when no candidate uses its name. */
  lemma ApiKeyOnceAndLast(params: seq<Candidate>, keyName: string, key: string)
    requires keyName !in CandidateKeys(params)
    ensures var q := Kept(params) + [(keyName, key)];
      q[|q| - 1] == (keyName, key) && CountKey(q, keyName) == 1
  {
    var q := Kept(params) + [(keyName, key)];
    KeptKeysFromCandidates(params, keyName);
    assert q[..|q| - 1] == Kept(params);
  }

  /** `Option<i32>::map(|v| v.to_string())`. */
  function DecimalOf(n: Option<int>): Option<string> {
    if n.Some? then Some(IntToDecimal(n.value)) else None
  }

  /** A number is never blank, so a present number is always sent, as its decimal rendering. */
  lemma NumberAlwaysEmitted(key: string, n: int)
    ensures Emitted((key, DecimalOf(Some(n))))
    ensures Trim(IntToDecimal(n)) == IntToDecimal(n)
  {
    var r := IntToDecimal(n);
    assert r[0] == '-' || IsDigit(r[0]);
    assert r[|r| - 1] == '-' || IsDigit(r[|r| - 1]);
    TrimOfTrimmed(r);
  }
}
