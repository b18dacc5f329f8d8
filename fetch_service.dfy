/** The fetch orchestrator (src/services/news_service/fetch_service.rs): it picks the client named by
    the settings, keeps the request parameters, and for the General and Business sections fetches
    articles and groups them by relative-time label before handing them to the page. The
    asynchronous task runs to completion inside the call here, so a call returns the one message the
    task would send (or none); the network, the clock, the date parsers and the generator's draws
    are the `World` the call runs in. */
module FetchService {
  import opened Wrappers
  import opened Text
  import RequestParameters
  import NewsSettings
  import NewsClients
  import NewsArticles
  import Sections
  import opened TimeOrganizer
  import opened Grouping
  import Generator
  import NewsApi
  import GNews
  import NewsData

  type Grouped = map<string, seq<NewsArticles.Article>>

  /** What the task reports to the page: `on_news_received` or `on_error`. */
  datatype NewsMessage = NewsReceived(grouped: Grouped) | ApiError(message: string)

  datatype World = World(
    replies: NewsClients.Replies,
    clock: Clock,
    parsers: Parsers,
    rng: nat -> Generator.Draws)

  /** The relative-time label an article is filed under. */
  function BucketLabel(a: NewsArticles.Article, w: World): string {
    Categorize(TimeBucketKey(NewsArticles.PublishedAt(a), w.parsers, w.clock), w.clock)
  }

  /** The grouping loop of both fetch paths, as a function of the fetched articles. */
  function GroupArticles(articles: seq<NewsArticles.Article>, w: World): Grouped {
    GroupBy(articles, a => BucketLabel(a, w))
  }

  /** Every article is in exactly the bucket of its own label, in fetch order; no bucket is empty;
      the buckets hold as many articles as were fetched; and every bucket's label is ranked, so the
      page can sort the buckets without a panic. */
  lemma GroupArticlesFacts(articles: seq<NewsArticles.Article>, w: World)
    ensures var g := GroupArticles(articles, w);
      && (forall k :: k in g ==> g[k] == Select(articles, a => BucketLabel(a, w), k))
      && (forall k :: k in g ==> |g[k]| > 0 && Rank(k).Some?)
      && (forall i :: 0 <= i < |articles| ==> BucketLabel(articles[i], w) in g)
      && Collections.SumValues(g, BucketSize) == |articles|
  {
    var key := a => BucketLabel(a, w);
    GroupByBuckets(articles, key);
    GroupByKeys(articles, key);
    NoEmptyBucket(articles, key);
    GroupByCount(articles, key);
    var g := GroupArticles(articles, w);
    forall k | k in g ensures Rank(k).Some? {
      var i :| 0 <= i < |articles| && key(articles[i]) == k;
      CategorizeIsRanked(TimeBucketKey(NewsArticles.PublishedAt(articles[i]), w.parsers, w.clock), w.clock);
    }
  }

  /** The message a finished fetch sends. */
  function Report(r: Result<seq<NewsArticles.Article>, string>, w: World): (m: NewsMessage)
    ensures r.Ok? <==> m.NewsReceived?
    ensures r.Err? ==> m == ApiError(r.error)
  {
    match r
    case Ok(articles) => NewsReceived(GroupArticles(articles, w))
    case Err(e) => ApiError(e)
  }

  /** The tail of `fetch_general_news` and `fetch_business_news`: on success the articles are
      pushed one by one onto the bucket of their label; on failure the error text is passed on. */
  method SendResult(r: Result<seq<NewsArticles.Article>, string>, w: World) returns (m: NewsMessage)
    ensures m == Report(r, w)
  {
    if r.Err? {
      return ApiError(r.error);
    }
    var grouped := GroupByKey(r.value, a => BucketLabel(a, w));
    return NewsReceived(grouped);
  }

  /** `NewsFetchService`. The settings store is shared with the rest of the application. */
  class NewsFetchService {
    const newsApiKey: string
    const gnewsKey: string
    const newsDataKey: string
    const settings: NewsSettings.Settings
    var requestParameters: RequestParameters.Params

    /** `new`: empty request parameters. */
    constructor (newsApiKey: string, gnewsKey: string, newsDataKey: string, settings: NewsSettings.Settings)
      ensures this.newsApiKey == newsApiKey && this.gnewsKey == gnewsKey && this.newsDataKey == newsDataKey
      ensures this.settings == settings
      ensures requestParameters == RequestParameters.New()
    {
      this.newsApiKey := newsApiKey;
      this.gnewsKey := gnewsKey;
      this.newsDataKey := newsDataKey;
      this.settings := settings;
      requestParameters := RequestParameters.New();
    }

    /** `get_client`: a client of the chosen provider with that provider's key. Building the NewsAPI
        client panics when its key is shorter than eight bytes. */
    function GetClient(source: NewsSettings.NewsSource): (r: Panics<NewsClients.Client>)
      ensures r.Panic? <==> source.NewsApiSource? && !IsCharBoundary(newsApiKey, 8)
      ensures r.Returns? ==>
        && (r.value.NewsApiClient? <==> source.NewsApiSource?)
        && (r.value.GNewsClient? <==> source.GNewsSource?)
        && (r.value.NewsDataClient? <==> source.NewsDataSource?)
      ensures r.Returns? && source.NewsApiSource? ==> r.value.newsApi.apiKey == newsApiKey
      ensures r.Returns? && source.GNewsSource? ==> r.value.gnews.apiToken == gnewsKey
      ensures r.Returns? && source.NewsDataSource? ==> r.value.newsData.apiToken == newsDataKey
    {
      if source.GNewsSource? then Returns(NewsClients.GNewsClient(GNews.New(gnewsKey)))
      else if source.NewsDataSource? then Returns(NewsClients.NewsDataClient(NewsData.New(newsDataKey)))
      else
        match NewsApi.New(newsApiKey)
        case Panic(reason) => Panic(reason)
        case Returns(c) => Returns(NewsClients.NewsApiClient(c))
    }

    /** `sync_parameters`: language and country are taken from the settings; every other parameter
        is kept. */
    method SyncParameters()
      modifies this
      ensures requestParameters == RequestParameters.SetCountry(
        RequestParameters.SetLanguage(old(requestParameters), settings.Language()), settings.Country())
      ensures forall f: RequestParameters.Field :: f != RequestParameters.Language && f != RequestParameters.Country ==>
        RequestParameters.Get(requestParameters, f) == RequestParameters.Get(old(requestParameters), f)
    {
      requestParameters := RequestParameters.SetCountry(
        RequestParameters.SetLanguage(requestParameters, settings.Language()), settings.Country());
    }

    /** What a `fetch_news` for `section` delivers in `w`, whatever the request parameters hold: a
        panic, nothing, or one message. */
    function Outcome(section: Sections.NewsSection, w: World): (r: Panics<Option<NewsMessage>>)
      reads settings
      ensures r.Returns? && r.value.Some? ==> section.General? || section.Business?
    {
      var chosen := GetClient(settings.Source());
      if chosen.Panic? then Panic(chosen.reason)
      else if section.General? then
        if NewsClients.DatesReturn(w.clock.nowUtc, w.rng, NewsClients.TEST_COUNT) then
          Returns(Some(NewsReceived(GroupArticles(NewsClients.TestArticles(chosen.value, w.clock.nowUtc, w.rng), w))))
        else Panic("the date generator drew from an empty range")
      else if section.Business? then Returns(Some(Report(NewsClients.Answer(chosen.value, w.replies), w)))
      else Returns(None)
    }

    /** The request parameters after a `fetch_news` for `section` and `page` that did not panic
        choosing its client: the page is stored, and the General path also takes the language and
        the country from the settings. */
    function ParamsAfter(before: RequestParameters.Params, section: Sections.NewsSection, page: Ints.i32): (p: RequestParameters.Params)
      reads settings
      ensures RequestParameters.Get(p, RequestParameters.Page) == Some(RequestParameters.Number(page))
      ensures section.General? ==>
        && RequestParameters.Get(p, RequestParameters.Language) == Some(RequestParameters.Text(settings.Language()))
        && RequestParameters.Get(p, RequestParameters.Country) == Some(RequestParameters.Text(settings.Country()))
      ensures forall f: RequestParameters.Field ::
        f != RequestParameters.Page && (section.General? ==> f != RequestParameters.Language && f != RequestParameters.Country) ==>
        RequestParameters.Get(p, f) == RequestParameters.Get(before, f)
    {
      var paged := RequestParameters.SetPage(before, page);
      if section.General? then
        RequestParameters.SetCountry(RequestParameters.SetLanguage(paged, settings.Language()), settings.Country())
      else paged
    }

    /** The labels of a grouping that a fetch delivers are all ranked, so sorting them for display
        cannot panic. */
    lemma OutcomeLabelsRanked(section: Sections.NewsSection, w: World)
      ensures var o := Outcome(section, w);
        o.Returns? && o.value.Some? && o.value.value.NewsReceived? ==>
          forall k :: k in o.value.value.grouped ==> Rank(k).Some?
    {
      var chosen := GetClient(settings.Source());
      if chosen.Returns? {
        GroupArticlesFacts(NewsClients.TestArticles(chosen.value, w.clock.nowUtc, w.rng), w);
        var r := NewsClients.Answer(chosen.value, w.replies);
        if r.Ok? {
          GroupArticlesFacts(r.value, w);
        }
      }
    }

    /** `fetch_news`. The client is chosen first, so a NewsAPI key that is too short panics whatever
        the section; then the page is stored in the parameters. The General path synchronises the
        parameters with the settings and fetches the placeholder articles; the Business path fetches
        business news without touching the parameters again; the five other sections send nothing. */
    method FetchNews(section: Sections.NewsSection, page: Ints.i32, w: World) returns (out: Panics<Option<NewsMessage>>)
      modifies this
      ensures out.Panic? == Outcome(section, w).Panic? && (out.Returns? ==> out == Outcome(section, w))
      ensures GetClient(settings.Source()).Returns? ==> requestParameters == ParamsAfter(old(requestParameters), section, page)
      ensures GetClient(settings.Source()).Panic? ==> out.Panic? && requestParameters == old(requestParameters)
      ensures GetClient(settings.Source()).Returns? ==>
        var client := GetClient(settings.Source()).value;
        var paged := RequestParameters.SetPage(old(requestParameters), page);
        && (section.General? ==>
              && requestParameters == RequestParameters.SetCountry(
                   RequestParameters.SetLanguage(paged, settings.Language()), settings.Country())
              && (out.Returns? <==> forall i :: 0 <= i < NewsClients.TEST_COUNT ==>
                    Generator.GenerateDate(w.clock.nowUtc, w.rng(i)).Returns?)
              && (out.Returns? ==>
                    out.value == Some(NewsReceived(GroupArticles(NewsClients.TestArticles(client, w.clock.nowUtc, w.rng), w)))))
        && (section.Business? ==>
              && requestParameters == paged
              && out == Returns(Some(Report(NewsClients.Answer(client, w.replies), w))))
        && (!section.General? && !section.Business? ==> requestParameters == paged && out == Returns(None))
    {
      var chosen := GetClient(settings.Source());
      if chosen.Panic? {
        return Panic(chosen.reason);
      }
      var client := chosen.value;
      requestParameters := RequestParameters.SetPage(requestParameters, page);
      if section.General? {
        SyncParameters();
        var fetched := NewsClients.FetchTestnews(client, w.clock.nowUtc, w.rng);
        match fetched
        case Panic(reason) =>
          out := Panic(reason);
        case Returns(r) =>
          var m := SendResult(r, w);
          out := Returns(Some(m));
      } else if section.Business? {
        var url, r := NewsClients.FetchBusiness(client, w.replies);
        var m := SendResult(r, w);
        out := Returns(Some(m));
      } else {
        out := Returns(None);
      }
    }
  }
}
