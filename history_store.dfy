/** The visit history (src/services/history_service/history.rs): the `article_history` table, keyed
    by article id. Each statement either succeeds or fails with an error text; which one is an input
    (`failure`), since the database is outside the model. */
module HistoryStore {
  import opened Wrappers
  import opened PersistentArticles

  type Table = map<string, PersistentArticle>

  const HISTORY_LIMIT := 10

  /** The table holds each row under its own id. */
  predicate KeyedById(t: Table) {
    forall id :: id in t ==> t[id].id == id
  }

  /** Rows by `visit_time`, newest first. */
  predicate NewestFirst(rows: seq<PersistentArticle>) {
    forall i, j :: 0 <= i < j < |rows| ==> rows[i].visitTime >= rows[j].visitTime
  }

  predicate DistinctIds(rows: seq<PersistentArticle>) {
    forall i, j :: 0 <= i < j < |rows| ==> rows[i].id != rows[j].id
  }

  /** `rows` are `limit` rows of `t` (all of them when there are fewer) and none left out is newer
      than one taken: the result of `ORDER BY visit_time DESC LIMIT limit`. Rows of equal visit time
      may come in either order. */
  predicate IsNewest(rows: seq<PersistentArticle>, t: Table, limit: nat) {
    && |rows| == (if |t| < limit then |t| else limit)
    && (forall i :: 0 <= i < |rows| ==> rows[i].id in t && t[rows[i].id] == rows[i])
    && DistinctIds(rows)
    && NewestFirst(rows)
    && (forall id, i :: id in t && NotTaken(rows, id) && 0 <= i < |rows| ==> t[id].visitTime <= rows[i].visitTime)
  }

  /** No row of `rows` has id `id`. */
  predicate NotTaken(rows: seq<PersistentArticle>, id: string) {
    forall i :: 0 <= i < |rows| ==> rows[i].id != id
  }

  /** The state of the selection loop of `get_all_history`: `taken` are rows of `t`, and `rest` is
      the part of `t` not taken yet ... */
  predicate Partition(t: Table, taken: seq<PersistentArticle>, rest: Table) {
    && (forall id :: id in rest ==> id in t && rest[id] == t[id] && NotTaken(taken, id))
    && (forall id :: id in t && NotTaken(taken, id) ==> id in rest)
    && (forall i :: 0 <= i < |taken| ==> taken[i].id in t && t[taken[i].id] == taken[i])
    && |taken| + |rest| == |t|
  }

  /** ... taken newest first, once each, and no remaining row is newer than a taken one. */
  predicate Ordered(taken: seq<PersistentArticle>, rest: Table) {
    && DistinctIds(taken)
    && NewestFirst(taken)
    && (forall id, i :: id in rest && 0 <= i < |taken| ==> rest[id].visitTime <= taken[i].visitTime)
  }

  predicate Progress(t: Table, taken: seq<PersistentArticle>, rest: Table) {
    Partition(t, taken, rest) && Ordered(taken, rest)
  }

  lemma ProgressStart(t: Table)
    ensures Progress(t, [], t)
  {
  }

  lemma PartitionStep(t: Table, taken: seq<PersistentArticle>, rest: Table, newest: string)
    requires KeyedById(t) && Partition(t, taken, rest) && newest in rest
    ensures Partition(t, taken + [rest[newest]], rest - {newest})
  {
    var taken' := taken + [rest[newest]];
    var rest' := rest - {newest};
    assert rest[newest].id == newest;
    assert forall i :: 0 <= i < |taken| ==> taken'[i] == taken[i];
    forall id | id in rest' ensures id in t && rest'[id] == t[id] && NotTaken(taken', id) {
      assert NotTaken(taken, id) && id != newest;
    }
    forall id | id in t && NotTaken(taken', id) ensures id in rest' {
      assert NotTaken(taken, id);
      assert taken'[|taken|].id != id;
    }
    assert rest'.Keys == rest.Keys - {newest};
    assert |rest'| == |rest| - 1;
  }

  lemma OrderedStep(t: Table, taken: seq<PersistentArticle>, rest: Table, newest: string)
    requires Ordered(taken, rest) && newest in rest && rest[newest].id == newest && NotTaken(taken, newest)
    requires forall j :: j in rest ==> rest[j].visitTime <= rest[newest].visitTime
    ensures Ordered(taken + [rest[newest]], rest - {newest})
  {
    var taken' := taken + [rest[newest]];
    assert forall i :: 0 <= i < |taken| ==> taken'[i] == taken[i];
    assert DistinctIds(taken') by {
      forall i, j | 0 <= i < j < |taken'| ensures taken'[i].id != taken'[j].id {
        if j == |taken| {
          assert NotTaken(taken, newest);
        }
      }
    }
    assert NewestFirst(taken') by {
      forall i, j | 0 <= i < j < |taken'| ensures taken'[i].visitTime >= taken'[j].visitTime {
        if j == |taken| {
          assert newest in rest;
        }
      }
    }
  }

  /** Taking the newest remaining row keeps the loop state. */
  lemma ProgressStep(t: Table, taken: seq<PersistentArticle>, rest: Table, newest: string)
    requires KeyedById(t) && Progress(t, taken, rest)
    requires newest in rest && forall j :: j in rest ==> rest[j].visitTime <= rest[newest].visitTime
    ensures Progress(t, taken + [rest[newest]], rest - {newest})
  {
    PartitionStep(t, taken, rest, newest);
    assert rest[newest].id == newest && NotTaken(taken, newest);
    OrderedStep(t, taken, rest, newest);
  }

  /** When the loop stops, the taken rows are the answer. */
  lemma ProgressDone(t: Table, taken: seq<PersistentArticle>, rest: Table, limit: nat)
    requires Progress(t, taken, rest) && |taken| <= limit
    requires |taken| == limit || rest == map[]
    ensures IsNewest(taken, t, limit)
  {
    if rest == map[] {
      assert |rest| == 0;
    }
    forall id, i | id in t && NotTaken(taken, id) && 0 <= i < |taken|
      ensures t[id].visitTime <= taken[i].visitTime
    {
      assert id in rest;
    }
  }

  /** A non-empty table has a row no other row is newer than. */
  lemma {:induction false} NewestExists(t: Table)
    requires t != map[]
    ensures exists id :: id in t && forall j :: j in t ==> t[j].visitTime <= t[id].visitTime
    decreases |t|
  {
    var k :| k in t;
    var rest := t - {k};
    assert forall j :: j in t ==> j == k || j in rest;
    if rest == map[] {
      assert forall j :: j in t ==> t[j].visitTime <= t[k].visitTime;
    } else {
      assert |rest| < |t| by { assert rest.Keys == t.Keys - {k}; }
      NewestExists(rest);
      var m :| m in rest && forall j :: j in rest ==> rest[j].visitTime <= rest[m].visitTime;
      if t[k].visitTime <= t[m].visitTime {
        assert forall j :: j in t ==> t[j].visitTime <= t[m].visitTime;
      } else {
        assert forall j :: j in t ==> t[j].visitTime <= t[k].visitTime;
      }
    }
  }

  /** A row left out of a newest-rows list is no newer than any row in it. */
  lemma LeftOutNotNewer(rows: seq<PersistentArticle>, t: Table, limit: nat, id: string, i: int)
    requires IsNewest(rows, t, limit) && id in t && NotTaken(rows, id) && 0 <= i < |rows|
    ensures t[id].visitTime <= rows[i].visitTime
  {
  }

  /** A row strictly newer than every other one, such as the article visited last, heads the
      newest-rows list. */
  lemma StrictlyNewestComesFirst(rows: seq<PersistentArticle>, t: Table, limit: nat, id: string)
    requires IsNewest(rows, t, limit) && limit > 0 && id in t
    requires forall j :: j in t && j != id ==> t[j].visitTime < t[id].visitTime
    ensures |rows| > 0 && rows[0] == t[id]
  {
    assert |rows| > 0;
    if NotTaken(rows, id) {
      LeftOutNotNewer(rows, t, limit, id, 0);
    }
  }

  class HistoryService {
    var table: Table

    /** Every row is stored under its own id, the table's primary key. */
    predicate Valid()
      reads this
    {
      KeyedById(table)
    }

    /** `new` on an existing database: the table as it was stored. */
    constructor (stored: Table)
      requires KeyedById(stored)
      ensures table == stored && Valid()
    {
      table := stored;
    }

    /** `save_to_history`: an upsert on the article's id. Afterwards that id holds exactly the
        article, visit time included (the clock reading taken at the start is not used), and no
        other row changes. A failed statement changes nothing. */
    method SaveToHistory(article: PersistentArticle, failure: Option<string>) returns (r: Result<(), string>)
      modifies this
      ensures failure.None? ==> r == Ok(()) && table == old(table)[article.id := article]
      ensures failure.Some? ==> r == Err(failure.value) && table == old(table)
      ensures old(Valid()) ==> Valid()
    {
      if failure.Some? {
        return Err(failure.value);
      }
      table := table[article.id := article];
      return Ok(());
    }

    /** `get_all_history`: at most ten rows, the newest, newest first. */
    method GetAllHistory(failure: Option<string>) returns (r: Result<seq<PersistentArticle>, string>)
      requires Valid()
      ensures failure.Some? ==> r == Err(failure.value)
      ensures failure.None? ==> r.Ok? && IsNewest(r.value, table, HISTORY_LIMIT)
      ensures r.Ok? ==> |r.value| <= HISTORY_LIMIT
    {
      if failure.Some? {
        return Err(failure.value);
      }
      var results: seq<PersistentArticle> := [];
      var rest := table;
      ProgressStart(table);
      while |results| < HISTORY_LIMIT && rest != map[]
        invariant Progress(table, results, rest) && |results| <= HISTORY_LIMIT
        decreases |rest|
      {
        NewestExists(rest);
        var newest :| newest in rest && forall j :: j in rest ==> rest[j].visitTime <= rest[newest].visitTime;
        ProgressStep(table, results, rest, newest);
        results := results + [rest[newest]];
        rest := rest - {newest};
      }
      ProgressDone(table, results, rest, HISTORY_LIMIT);
      return Ok(results);
    }

    /** `delete_entry`: removes that id only; an id that is not there is a successful no-op. */
    method DeleteEntry(id: string, failure: Option<string>) returns (r: Result<(), string>)
      modifies this
      ensures failure.None? ==> r == Ok(()) && table == old(table) - {id}
      ensures failure.None? && id !in old(table) ==> table == old(table)
      ensures failure.Some? ==> r == Err(failure.value) && table == old(table)
      ensures old(Valid()) ==> Valid()
    {
      if failure.Some? {
        return Err(failure.value);
      }
      table := table - {id};
      return Ok(());
    }

    /** `clear_all_history`: leaves the table empty. */
    method ClearAllHistory(failure: Option<string>) returns (r: Result<(), string>)
      modifies this
      ensures failure.None? ==> r == Ok(()) && table == map[]
      ensures old(Valid()) ==> Valid()
      ensures failure.Some? ==> r == Err(failure.value) && table == old(table)
    {
      if failure.Some? {
        return Err(failure.value);
      }
      table := map[];
      return Ok(());
    }
  }
}
