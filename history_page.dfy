/** The history page (src/pages/history_page.rs): it groups the rows the history worker sends by how
    many days ago they were visited, shows the groups in ascending order of an integer key, and
    forwards delete requests to the worker. chrono's local-time conversion and formatting are a
    `LocalClock` parameter. */
module HistoryPages {
  import opened Wrappers
  import opened Ints
  import opened PersistentArticles
  import opened Grouping
  import opened Collections
  import HistoryWorkers

  /** What chrono gives for an instant in local time: the local date as a day number, the weekday
      name (`%A`), the long date (`%A, %B %d`) and the Unix timestamp. */
  datatype LocalTime = LocalTime(date: int, weekday: string, longDate: string, timestamp: int)

  /** `Local::now()`, and the local time of a Unix second (`None` where chrono cannot represent it). */
  datatype LocalClock = LocalClock(now: LocalTime, at: i64 -> Option<LocalTime>)

  /** The local time of the visit, or now when the visit time is out of range. */
  function VisitedAt(a: PersistentArticle, c: LocalClock): LocalTime {
    c.at(a.visitTime).GetOr(c.now)
  }

  /** The label and sort key of a visit `daysDiff` days before today. */
  function DayGroup(dt: LocalTime, daysDiff: int): (g: (string, int))
    ensures 0 <= daysDiff <= 6 ==> g.1 == daysDiff
    ensures daysDiff == 0 ==> g.0 == "Today"
    ensures daysDiff == 1 ==> g.0 == "Yesterday"
    ensures 2 <= daysDiff <= 6 ==> g.0 == dt.weekday
    ensures !(0 <= daysDiff <= 6) ==> g == (dt.longDate, -dt.timestamp)
  {
    if daysDiff == 0 then ("Today", 0)
    else if daysDiff == 1 then ("Yesterday", 1)
    else if 2 <= daysDiff <= 6 then (dt.weekday, daysDiff)
    else (dt.longDate, -dt.timestamp)
  }

  function DaysAgo(a: PersistentArticle, c: LocalClock): int {
    c.now.date - VisitedAt(a, c).date
  }

  function Label(a: PersistentArticle, c: LocalClock): string {
    DayGroup(VisitedAt(a, c), DaysAgo(a, c)).0
  }

  function Key(a: PersistentArticle, c: LocalClock): int {
    DayGroup(VisitedAt(a, c), DaysAgo(a, c)).1
  }

  /** The sort key as a function, which the grouping is over. */
  function KeyOf(c: LocalClock): PersistentArticle -> int {
    a => Key(a, c)
  }

  /** The first week keeps one group per day: 0 is "Today", 1 "Yesterday", and 2 to 6 the weekday,
      each keyed by the number of days. */
  lemma RecentKeys(a: PersistentArticle, c: LocalClock)
    requires 0 <= DaysAgo(a, c) <= 6
    ensures Key(a, c) == DaysAgo(a, c)
    ensures DaysAgo(a, c) == 0 ==> Label(a, c) == "Today"
    ensures DaysAgo(a, c) == 1 ==> Label(a, c) == "Yesterday"
    ensures DaysAgo(a, c) >= 2 ==> Label(a, c) == VisitedAt(a, c).weekday
  {
  }

  /** Anything else, a week or more ago or in the future, is keyed by its negated timestamp, so two
      such visits share a group exactly when they are in the same second. */
  lemma OlderKeys(a: PersistentArticle, b: PersistentArticle, c: LocalClock)
    requires !(0 <= DaysAgo(a, c) <= 6) && !(0 <= DaysAgo(b, c) <= 6)
    ensures Label(a, c) == VisitedAt(a, c).longDate
    ensures Key(a, c) == Key(b, c) <==> VisitedAt(a, c).timestamp == VisitedAt(b, c).timestamp
  {
  }

  /** A visit time chrono cannot represent falls back to now, which is "Today". */
  lemma UnrepresentableIsToday(a: PersistentArticle, c: LocalClock)
    requires c.at(a.visitTime).None?
    ensures Label(a, c) == "Today" && Key(a, c) == 0
  {
  }

  /** A visit a week or more ago after the Unix epoch sorts before every visit of the last week. */
  lemma OlderSortsFirst(a: PersistentArticle, b: PersistentArticle, c: LocalClock)
    requires !(0 <= DaysAgo(a, c) <= 6) && VisitedAt(a, c).timestamp > 0
    requires 0 <= DaysAgo(b, c) <= 6
    ensures Key(a, c) < 0 <= Key(b, c)
  {
  }

  /** The buckets of the `BTreeMap`, keyed by sort key, each with the label of its first article. */
  function Groups(articles: seq<PersistentArticle>, c: LocalClock): (g: map<int, (string, seq<PersistentArticle>)>)
    ensures forall k :: k in g ==> |g[k].1| > 0 && g[k].0 == Label(g[k].1[0], c)
  {
    var buckets := GroupBy(articles, KeyOf(c));
    NoEmptyBucket(articles, KeyOf(c));
    map k | k in buckets :: (Label(buckets[k][0], c), buckets[k])
  }

  /** What the page shows for a non-empty list: the groups in ascending key order. */
  ghost function Shown(articles: seq<PersistentArticle>, c: LocalClock): (shown: seq<(string, seq<PersistentArticle>)>)
    ensures forall p :: 0 <= p < |shown| ==> |shown[p].1| > 0
  {
    InKeyOrder(Groups(articles, c))
  }

  /** Each bucket holds the articles of its key, in input order, and every article's key has one. */
  lemma GroupsFacts(articles: seq<PersistentArticle>, c: LocalClock)
    ensures forall i :: 0 <= i < |articles| ==> Key(articles[i], c) in Groups(articles, c)
    ensures forall k :: k in Groups(articles, c) ==> Groups(articles, c)[k].1 == Select(articles, KeyOf(c), k)
    ensures forall k, x :: k in Groups(articles, c) && x in Groups(articles, c)[k].1 ==> Key(x, c) == k
  {
    GroupByKeys(articles, KeyOf(c));
    GroupByBuckets(articles, KeyOf(c));
    forall k | k in Groups(articles, c)
      ensures forall x :: x in Groups(articles, c)[k].1 ==> Key(x, c) == k
    {
      SelectMembers(articles, KeyOf(c), k);
    }
  }

  /** The shown list is the buckets, smallest key first. */
  lemma ShownOrder(articles: seq<PersistentArticle>, c: LocalClock)
    ensures var g := Groups(articles, c); var ks := Ascending(g.Keys); var shown := Shown(articles, c);
      && |shown| == |ks| == |g|
      && (forall k :: k in ks <==> k in g)
      && (forall p :: 0 <= p < |shown| ==> ks[p] in g && shown[p] == g[ks[p]])
      && (forall p, q :: 0 <= p < q < |ks| ==> ks[p] < ks[q])
  {
    AscendingFacts(Groups(articles, c).Keys);
  }

  /** Every article lands in some group. */
  lemma ShownCovers(articles: seq<PersistentArticle>, c: LocalClock)
    ensures var shown := Shown(articles, c);
      forall i :: 0 <= i < |articles| ==> exists p :: 0 <= p < |shown| && articles[i] in shown[p].1
  {
    var g := Groups(articles, c);
    var ks := Ascending(g.Keys);
    var shown := Shown(articles, c);
    GroupsFacts(articles, c);
    ShownOrder(articles, c);
    forall i | 0 <= i < |articles|
      ensures exists p :: 0 <= p < |shown| && articles[i] in shown[p].1
    {
      var k := Key(articles[i], c);
      assert k in ks;
      var p :| 0 <= p < |ks| && ks[p] == k;
      SelectMembers(articles, KeyOf(c), k);
      assert articles[i] in shown[p].1;
    }
  }

  /** Each group holds, in input order, exactly the articles of one key, under the label of its
      first article. */
  lemma ShownBuckets(articles: seq<PersistentArticle>, c: LocalClock)
    ensures var shown := Shown(articles, c);
      forall p :: 0 <= p < |shown| ==>
        && |shown[p].1| > 0
        && shown[p].0 == Label(shown[p].1[0], c)
        && shown[p].1 == Select(articles, KeyOf(c), Key(shown[p].1[0], c))
        && (forall x :: x in shown[p].1 ==> Key(x, c) == Key(shown[p].1[0], c))
  {
    GroupsFacts(articles, c);
    ShownOrder(articles, c);
  }

  /** The groups come in strictly ascending key order. */
  lemma ShownAscending(articles: seq<PersistentArticle>, c: LocalClock)
    ensures var shown := Shown(articles, c);
      forall p, q :: 0 <= p < q < |shown| ==> Key(shown[p].1[0], c) < Key(shown[q].1[0], c)
  {
    var g := Groups(articles, c);
    var ks := Ascending(g.Keys);
    var shown := Shown(articles, c);
    GroupsFacts(articles, c);
    ShownOrder(articles, c);
    assert forall p :: 0 <= p < |shown| ==> Key(shown[p].1[0], c) == ks[p];
  }

  /** A group of visits from a week or more ago (after the Unix epoch) is shown before any group of
      the last week, "Today" included. */
  lemma OlderGroupsShownFirst(articles: seq<PersistentArticle>, c: LocalClock, p: int, q: int, x: PersistentArticle, y: PersistentArticle)
    requires 0 <= p < |Shown(articles, c)| && 0 <= q < |Shown(articles, c)|
    requires x in Shown(articles, c)[p].1 && y in Shown(articles, c)[q].1
    requires !(0 <= DaysAgo(x, c) <= 6) && VisitedAt(x, c).timestamp > 0
    requires 0 <= DaysAgo(y, c) <= 6
    ensures p < q
  {
    ShownBuckets(articles, c);
    ShownAscending(articles, c);
    OlderSortsFirst(x, y, c);
  }

  class HistoryPage {
    var showSidebarToggleBtn: bool
    var historyAvailable: bool
    var selectModeOn: bool
    var shown: seq<(string, seq<PersistentArticle>)>
    /** Messages emitted to the history worker, oldest first. */
    var workerOutbox: seq<HistoryWorkers.WorkerInput>

    /** `init`: no history yet, selection mode off; the page subscribes to the worker with its own
        sender `me` and then asks it for the history. */
    constructor (showSidebarToggleBtn: bool, me: HistoryWorkers.Subscriber)
      ensures this.showSidebarToggleBtn == showSidebarToggleBtn
      ensures !historyAvailable && !selectModeOn && shown == []
      ensures workerOutbox == [HistoryWorkers.Subscribe(me), HistoryWorkers.Fetch]
    {
      this.showSidebarToggleBtn := showSidebarToggleBtn;
      historyAvailable := false;
      selectModeOn := false;
      shown := [];
      workerOutbox := [HistoryWorkers.Subscribe(me), HistoryWorkers.Fetch];
    }

    /** `UpdateHistory`: an empty list shows nothing and marks the history unavailable; otherwise
        the groups are shown in ascending key order. Nothing else changes. */
    method UpdateHistory(articles: seq<PersistentArticle>, c: LocalClock)
      modifies this
      ensures historyAvailable <==> articles != []
      ensures articles == [] ==> shown == []
      ensures articles != [] ==> shown == Shown(articles, c)
      ensures showSidebarToggleBtn == old(showSidebarToggleBtn) && selectModeOn == old(selectModeOn)
      ensures workerOutbox == old(workerOutbox)
    {
      historyAvailable := true;
      shown := [];
      if articles == [] {
        historyAvailable := false;
        return;
      }
      var groups := GroupRows(articles, c);
      shown := ValuesInKeyOrder(groups);
    }

    /** `ShowSidebarToggleBtn`. */
    method OnShowSidebarToggleBtn(visible: bool)
      modifies this
      ensures showSidebarToggleBtn == visible
      ensures historyAvailable == old(historyAvailable) && selectModeOn == old(selectModeOn)
      ensures shown == old(shown) && workerOutbox == old(workerOutbox)
    {
      showSidebarToggleBtn := visible;
    }

    /** `DeleteHistoryEntry(id)`: the id goes to the worker unchanged. */
    method DeleteHistoryEntry(id: string)
      modifies this
      ensures workerOutbox == old(workerOutbox) + [HistoryWorkers.Delete(id)]
      ensures historyAvailable == old(historyAvailable) && selectModeOn == old(selectModeOn)
      ensures shown == old(shown) && showSidebarToggleBtn == old(showSidebarToggleBtn)
    {
      workerOutbox := workerOutbox + [HistoryWorkers.Delete(id)];
    }

    /** `ClearHistory`: asks the worker to delete everything and marks the history available. */
    method ClearHistory()
      modifies this
      ensures workerOutbox == old(workerOutbox) + [HistoryWorkers.DeleterAll]
      ensures historyAvailable
      ensures selectModeOn == old(selectModeOn) && shown == old(shown) && showSidebarToggleBtn == old(showSidebarToggleBtn)
    {
      workerOutbox := workerOutbox + [HistoryWorkers.DeleterAll];
      historyAvailable := true;
    }

    /** `ActivateSelectionMode` and `DeactivateSelectMode`. */
    method SetSelectionMode(on: bool)
      modifies this
      ensures selectModeOn == on
      ensures historyAvailable == old(historyAvailable) && shown == old(shown)
      ensures showSidebarToggleBtn == old(showSidebarToggleBtn) && workerOutbox == old(workerOutbox)
    {
      selectModeOn := on;
    }
  }

  /** The grouping loop: `groups.entry(key).or_insert((label, Vec::new())).1.push(article)`. */
  method GroupRows(articles: seq<PersistentArticle>, c: LocalClock) returns (groups: map<int, (string, seq<PersistentArticle>)>)
    ensures groups == Groups(articles, c)
  {
    var key := KeyOf(c);
    groups := map[];
    for i := 0 to |articles|
      invariant groups.Keys == GroupBy(articles[..i], key).Keys
      invariant forall k :: k in groups ==> groups[k].1 == GroupBy(articles[..i], key)[k]
      invariant forall k :: k in groups ==> |groups[k].1| > 0 && groups[k].0 == Label(groups[k].1[0], c)
    {
      assert articles[..i + 1][..i] == articles[..i];
      var x := articles[i];
      var k := Key(x, c);
      if k in groups {
        groups := groups[k := (groups[k].0, groups[k].1 + [x])];
      } else {
        groups := groups[k := (Label(x, c), [x])];
      }
    }
    assert articles[..|articles|] == articles;
    assert forall k :: k in groups ==> groups[k] == Groups(articles, c)[k];
  }
}
