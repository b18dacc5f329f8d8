/** The state machine behind a category page (src/pages/category_page.rs): the messages it handles
    one at a time, the pagination it drives and the buckets it shows. Messages the page sends to
    itself (`sender.input`) go to the end of `inbox`; the message a fetch delivers is put there at
    once, as if the asynchronous task finished before the next message. What the page shows is the
    list of (label, articles) sections in display order. */
module CategoryPages {
  import opened Wrappers
  import opened Ints
  import opened TimeOrganizer
  import NewsArticles
  import PersistentArticles
  import Sections
  import FetchService
  import RequestParameters
  import Pagination

  const I32_MAX: int := 0x7fff_ffff

  /** `PageInput`. */
  datatype PageInput =
    | FetchNews
    | Refresh
    | NextPage
    | PreviousPage
    | CopyError
    | LoadPage(page: i32)
    | NewsReceived(grouped: FetchService.Grouped)
    | GotoNews(article: NewsArticles.Article, related: seq<NewsArticles.Article>)
    | ApiError(message: string)
    | ShowSidebarToggleBtn(visible: bool)

  /** The `NewsHandler` implementation: what a finished fetch puts in the page's inbox. */
  function Deliver(m: Option<FetchService.NewsMessage>): (q: seq<PageInput>)
    ensures m.None? ==> q == []
    ensures m.Some? && m.value.NewsReceived? ==> q == [NewsReceived(m.value.grouped)]
    ensures m.Some? && m.value.ApiError? ==> q == [ApiError(m.value.message)]
  {
    if m.None? then []
    else if m.value.NewsReceived? then [NewsReceived(m.value.grouped)]
    else [ApiError(m.value.message)]
  }

  // --- the display order of buckets ---

  /** Labels in strictly increasing rank, so each label appears once. */
  predicate RankedIncreasing(order: seq<string>) {
    forall i, j :: 0 <= i < j < |order| ==>
      Rank(order[i]).Some? && Rank(order[j]).Some? && Rank(order[i]).value < Rank(order[j]).value
  }

  lemma {:induction false} DistinctCard(s: seq<string>)
    requires forall i, j :: 0 <= i < j < |s| ==> s[i] != s[j]
    ensures |set x | x in s| == |s|
  {
    if s != [] {
      DistinctCard(s[1..]);
      assert (set x | x in s) == {s[0]} + (set x | x in s[1..]);
      assert s[0] !in (set x | x in s[1..]);
    }
  }

  lemma SingletonSet(keys: set<string>, k: string)
    requires |keys| == 1 && k in keys
    ensures keys == {k}
  {
    assert |keys - {k}| == 0;
  }

  /** The state of the rank-by-rank sort: `order` holds, in increasing rank, exactly the keys of
      rank below `rank`. */
  predicate SortProgress(keys: set<string>, order: seq<string>, rank: int)
    requires forall k :: k in keys ==> Rank(k).Some?
  {
    && (forall k :: k in order ==> k in keys)
    && (forall i :: 0 <= i < |order| ==> Rank(order[i]).Some? && Rank(order[i]).value < rank)
    && RankedIncreasing(order)
    && (forall k :: k in keys && Rank(k).value < rank ==> k in order)
  }

  /** Taking the label of `rank` when it is a key keeps the state. */
  lemma SortStep(keys: set<string>, order: seq<string>, rank: int)
    requires forall k :: k in keys ==> Rank(k).Some?
    requires 1 <= rank <= 13 && SortProgress(keys, order, rank)
    ensures var name := LabelOfRank(rank);
      SortProgress(keys, order + (if name in keys then [name] else []), rank + 1)
  {
    var name := LabelOfRank(rank);
    RankOfLabel(rank);
    var order' := order + (if name in keys then [name] else []);
    assert forall i :: 0 <= i < |order| ==> order'[i] == order[i];
    forall k | k in keys && Rank(k).value < rank + 1 ensures k in order' {
      if Rank(k).value == rank {
        RankInverse(k);
      } else {
        assert k in order;
      }
    }
  }

  /** After rank 13 every key has been taken, once. */
  lemma SortDone(keys: set<string>, order: seq<string>)
    requires forall k :: k in keys ==> Rank(k).Some?
    requires SortProgress(keys, order, 14)
    ensures |order| == |keys| && forall k :: k in order <==> k in keys
  {
    forall k | k in keys ensures k in order {
      RankInverse(k);
    }
    DistinctCard(order);
    assert (set x | x in order) == keys;
  }

  /** The bucket labels sorted with `comapre`. Sorting two or more labels compares each of them,
      so an unranked label anywhere panics; a single label is never compared. The sorted labels are
      all the keys, once each, in increasing rank. */
  method SortBuckets(keys: set<string>) returns (r: Panics<seq<string>>)
    ensures r.Panic? <==> |keys| >= 2 && exists k :: k in keys && Rank(k).None?
    ensures r.Returns? ==> |r.value| == |keys| && forall k :: k in r.value <==> k in keys
    ensures r.Returns? && |keys| >= 2 ==> RankedIncreasing(r.value)
  {
    if |keys| >= 2 && exists k :: k in keys && Rank(k).None? {
      return Panic("called `Option::unwrap()` on a `None` value");
    }
    if |keys| < 2 {
      if keys == {} {
        return Returns([]);
      }
      var k :| k in keys;
      SingletonSet(keys, k);
      return Returns([k]);
    }
    var order: seq<string> := [];
    for rank := 1 to 14
      invariant SortProgress(keys, order, rank)
    {
      var name := LabelOfRank(rank);
      SortStep(keys, order, rank);
      if name in keys {
        order := order + [name];
      }
    }
    SortDone(keys, order);
    return Returns(order);
  }

  /** The labels of the shown sections, in display order. */
  function Labels(shown: seq<(string, seq<NewsArticles.Article>)>): (ls: seq<string>)
    ensures |ls| == |shown| && forall i :: 0 <= i < |shown| ==> ls[i] == shown[i].0
  {
    seq(|shown|, i requires 0 <= i < |shown| => shown[i].0)
  }

  /** The sections the page shows for `grouped`: one per bucket, in `order`, each with its own
      articles. */
  function ShownSections(order: seq<string>, grouped: FetchService.Grouped): (shown: seq<(string, seq<NewsArticles.Article>)>)
    requires forall k :: k in order ==> k in grouped
    ensures Labels(shown) == order
    ensures forall i :: 0 <= i < |shown| ==> shown[i].1 == grouped[shown[i].0]
  {
    seq(|order|, i requires 0 <= i < |order| => (order[i], grouped[order[i]]))
  }

  /** Everything the page's messages can change, in one value. */
  datatype PageView = PageView(
    showSidebarToggleBtn: bool,
    isRefreshing: bool,
    errorMessage: Option<string>,
    isLoading: bool,
    reachedEnd: bool,
    shown: seq<(string, seq<NewsArticles.Article>)>,
    newsPage: Option<(NewsArticles.Article, seq<NewsArticles.Article>)>,
    historyOutbox: seq<PersistentArticles.PersistentArticle>,
    inbox: seq<PageInput>,
    pages: map<i32, FetchService.Grouped>,
    currentPage: i32,
    totalResults: nat)

  /** `CategoryPage`. `newsPage` is the article page pushed on the navigation view with the related
      articles it was given, and `historyOutbox` the records sent to the history worker. */
  class CategoryPage {
    const category: Sections.NewsSection
    const fetchService: FetchService.NewsFetchService
    const pagination: Pagination.NewsPagination
    var showSidebarToggleBtn: bool
    var isRefreshing: bool
    var errorMessage: Option<string>
    var isLoading: bool
    var reachedEnd: bool
    var shown: seq<(string, seq<NewsArticles.Article>)>
    var newsPage: Option<(NewsArticles.Article, seq<NewsArticles.Article>)>
    var historyOutbox: seq<PersistentArticles.PersistentArticle>
    var inbox: seq<PageInput>

    ghost function View(): PageView
      reads this, pagination
    {
      PageView(showSidebarToggleBtn, isRefreshing, errorMessage, isLoading, reachedEnd, shown, newsPage,
               historyOutbox, inbox, pagination.pages, pagination.currentPage, pagination.totalResults)
    }

    /** `init`: loading, nothing shown, a fresh pagination, and a FetchNews queued. */
    constructor (category: Sections.NewsSection, fetchService: FetchService.NewsFetchService, showSidebarToggleBtn: bool)
      ensures this.category == category && this.fetchService == fetchService && fresh(pagination)
      ensures View() == PageView(showSidebarToggleBtn, false, None, true, false, [], None, [], [FetchNews], map[], 1, 0)
    {
      this.category := category;
      this.fetchService := fetchService;
      this.showSidebarToggleBtn := showSidebarToggleBtn;
      isRefreshing := false;
      errorMessage := None;
      isLoading := true;
      pagination := new Pagination.NewsPagination();
      reachedEnd := false;
      shown := [];
      newsPage := None;
      historyOutbox := [];
      inbox := [FetchNews];
    }

    /** `ShowSidebarToggleBtn`. */
    method OnShowSidebarToggleBtn(visible: bool)
      modifies this
      ensures View() == old(View()).(showSidebarToggleBtn := visible)
    {
      showSidebarToggleBtn := visible;
    }

    /** `FetchNews`: clears the error and fetches provider page 0, whatever page is on show. */
    method OnFetchNews(w: FetchService.World) returns (r: Panics<()>)
      modifies this, fetchService
      ensures var o := fetchService.Outcome(category, w);
        && r.Panic? == o.Panic?
        && (r.Returns? ==>
              && View() == old(View()).(errorMessage := None, inbox := old(inbox) + Deliver(o.value))
              && fetchService.requestParameters == fetchService.ParamsAfter(old(fetchService.requestParameters), category, 0))
    {
      errorMessage := None;
      var out := fetchService.FetchNews(category, 0, w);
      if out.Panic? {
        return Panic(out.reason);
      }
      inbox := inbox + Deliver(out.value);
      return Returns(());
    }

    /** `Refresh`: starts the banner spinner, clears the error, resets the pagination and queues a
        FetchNews. */
    method OnRefresh()
      modifies this, pagination
      ensures View() == old(View()).(isRefreshing := true, errorMessage := None, inbox := old(inbox) + [FetchNews],
                                     pages := map[], currentPage := 1, totalResults := 0)
    {
      isRefreshing := true;
      errorMessage := None;
      pagination.Reset();
      inbox := inbox + [FetchNews];
    }

    /** `NewsReceived`. An empty grouping marks the end of the pages and steps the page counter back
        unless it is already 0, so page 1 can fall to 0; nothing is cached. A non-empty grouping is
        cached under the current page, leaving every other page alone, and its buckets are shown in
        rank order. Either way loading ends. */
    method OnNewsReceived(grouped: FetchService.Grouped) returns (r: Panics<()>)
      modifies this, pagination
      ensures grouped == map[] ==>
        && r == Returns(())
        && View() == old(View()).(isRefreshing := false, reachedEnd := true, isLoading := false,
             currentPage := if old(pagination.currentPage) > 0 then old(pagination.currentPage) - 1 else old(pagination.currentPage))
      ensures grouped != map[] ==>
        && (r.Panic? <==> |grouped| >= 2 && exists k :: k in grouped && Rank(k).None?)
        && (r.Returns? ==>
              && View() == old(View()).(isRefreshing := false, reachedEnd := false, isLoading := false, shown := shown,
                   pages := old(pagination.pages)[old(pagination.currentPage) := grouped])
              && |shown| == |grouped|
              && (forall k :: k in Labels(shown) <==> k in grouped)
              && (forall i :: 0 <= i < |shown| ==> shown[i].1 == grouped[shown[i].0])
              && (|grouped| >= 2 ==> RankedIncreasing(Labels(shown))))
    {
      isRefreshing := false;
      if grouped == map[] {
        reachedEnd := true;
        if pagination.currentPage > 0 {
          pagination.currentPage := pagination.currentPage - 1;
        }
      } else {
        reachedEnd := false;
        pagination.pages := pagination.pages[pagination.currentPage := grouped];
        shown := [];
        var sorted := SortBuckets(grouped.Keys);
        if sorted.Panic? {
          return Panic(sorted.reason);
        }
        shown := ShownSections(sorted.value, grouped);
      }
      isLoading := false;
      return Returns(());
    }

    /** `GotoNews`: records the visit with the history worker and opens the article with its related
        articles. */
    method OnGotoNews(article: NewsArticles.Article, related: seq<NewsArticles.Article>,
                      sha256: seq<byte> -> PersistentArticles.Digest, now: i64)
      modifies this
      ensures View() == old(View()).(historyOutbox := old(historyOutbox) + [NewsArticles.HistoryRecord(article, sha256, now)],
                                     newsPage := Some((article, related)))
    {
      historyOutbox := historyOutbox + [NewsArticles.HistoryRecord(article, sha256, now)];
      newsPage := Some((article, related));
    }

    /** `NextPage`: queues the page after the current one. The increment of the 32-bit counter
        panics on overflow. */
    method OnNextPage() returns (r: Panics<()>)
      modifies this
      ensures r.Panic? <==> pagination.currentPage as int == I32_MAX
      ensures r.Returns? ==> View() == old(View()).(inbox := old(inbox) + [LoadPage(pagination.currentPage + 1)])
    {
      if pagination.currentPage as int == I32_MAX {
        return Panic("attempt to add with overflow");
      }
      inbox := inbox + [LoadPage(pagination.currentPage + 1)];
      return Returns(());
    }

    /** `PreviousPage`: queues the page before the current one, and does nothing on page 1 or
        below. */
    method OnPreviousPage()
      modifies this
      ensures pagination.currentPage <= 1 ==> View() == old(View())
      ensures pagination.currentPage > 1 ==> View() == old(View()).(inbox := old(inbox) + [LoadPage(pagination.currentPage - 1)])
    {
      if pagination.currentPage > 1 {
        inbox := inbox + [LoadPage(pagination.currentPage - 1)];
      }
    }

    /** `LoadPage`: a cached page is made current and its grouping replayed without a fetch; any
        other page is made current and fetched, with the banner spinner on. */
    method OnLoadPage(page: i32, w: FetchService.World) returns (r: Panics<()>)
      modifies this, pagination, fetchService
      ensures page in old(pagination.pages) ==>
        && r == Returns(())
        && View() == old(View()).(currentPage := page, inbox := old(inbox) + [NewsReceived(old(pagination.pages)[page])])
        && fetchService.requestParameters == old(fetchService.requestParameters)
      ensures page !in old(pagination.pages) ==>
        var o := fetchService.Outcome(category, w);
        && r.Panic? == o.Panic?
        && (r.Returns? ==>
              && View() == old(View()).(isRefreshing := true, currentPage := page, inbox := old(inbox) + Deliver(o.value))
              && fetchService.requestParameters == fetchService.ParamsAfter(old(fetchService.requestParameters), category, page))
    {
      if page in pagination.pages {
        pagination.currentPage := page;
        inbox := inbox + [NewsReceived(pagination.pages[page])];
        return Returns(());
      }
      isRefreshing := true;
      pagination.currentPage := page;
      var out := fetchService.FetchNews(category, page, w);
      if out.Panic? {
        return Panic(out.reason);
      }
      inbox := inbox + Deliver(out.value);
      return Returns(());
    }

    /** `ApiError`: stops the banner spinner and keeps the message for display. */
    method OnApiError(message: string)
      modifies this
      ensures View() == old(View()).(isRefreshing := false, errorMessage := Some(message))
    {
      isRefreshing := false;
      errorMessage := Some(message);
    }
  }
}
