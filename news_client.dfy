/** The provider adapters (src/types/news_client.rs): what each of the three clients reports about
    itself, how it formats a language code, and how its general, business and test fetches turn the
    provider's result into a list of articles or an error string. The network's answer is a
    parameter (`Replies`: what each provider would reply), and so are the clock and the random
    draws of the test-date generator. */
module NewsClients {
  import opened Wrappers
  import opened Text
  import opened QueryPairs
  import opened RequestParameters
  import NewsArticles
  import opened Generator
  import NewsApi
  import GNews
  import NewsData

  datatype Client =
    | NewsApiClient(newsApi: NewsApi.Client)
    | GNewsClient(gnews: GNews.Client)
    | NewsDataClient(newsData: NewsData.Client)

  /** `name`. The GNews adapter reports the same name as the NewsAPI one. */
  function Name(c: Client): string {
    match c
    case NewsApiClient(_) => "NewsAPI"
    case GNewsClient(_) => "NewsAPI"
    case NewsDataClient(_) => "NewsData"
  }

  lemma NamesCollide(a: NewsApi.Client, g: GNews.Client, d: NewsData.Client)
    ensures Name(GNewsClient(g)) == Name(NewsApiClient(a)) != Name(NewsDataClient(d))
  {
  }

  type LanguageList = seq<(string, string)>

  const NEWS_API_LANGUAGES: LanguageList := [
    ("", "All Languages"), ("ar", "Arabic"), ("de", "German"), ("en", "English"),
    ("es", "Spanish"), ("fr", "French"), ("he", "Hebrew"), ("it", "Italian"), ("nl", "Dutch"),
    ("no", "Norwegian"), ("pt", "Portuguese"), ("ru", "Russian"), ("sv", "Swedish"),
    ("ud", "Urdu"), ("zh", "Chinese")]

  const GNEWS_LANGUAGES: LanguageList := [
    ("ar", "Arabic"), ("bn", "Bengali"), ("bg", "Bulgarian"), ("ca", "Catalan"),
    ("zh", "Chinese"), ("cs", "Czech"), ("nl", "Dutch"), ("en", "English"), ("et", "Estonian"),
    ("fi", "Finnish"), ("fr", "French"), ("de", "German"), ("el", "Greek"), ("gu", "Gujarati"),
    ("he", "Hebrew"), ("hi", "Hindi"), ("hu", "Hungarian"), ("id", "Indonesian"),
    ("it", "Italian"), ("ja", "Japanese"), ("ko", "Korean"), ("lv", "Latvian"),
    ("lt", "Lithuanian"), ("ml", "Malayalam"), ("mr", "Marathi"), ("no", "Norwegian"),
    ("pl", "Polish"), ("pt", "Portuguese"), ("pa", "Punjabi"), ("ro", "Romanian"),
    ("ru", "Russian"), ("sk", "Slovak"), ("sl", "Slovenian"), ("es", "Spanish"),
    ("sv", "Swedish"), ("ta", "Tamil"), ("te", "Telugu"), ("th", "Thai"), ("tr", "Turkish"),
    ("uk", "Ukrainian"), ("vi", "Vietnamese")]

  /** `supported_languages`: (code, name) pairs; the NewsData adapter's is a `todo!` and panics. */
  function SupportedLanguages(c: Client): (r: Panics<LanguageList>)
    ensures r.Panic? <==> c.NewsDataClient?
  {
    match c
    case NewsApiClient(_) => Returns(NEWS_API_LANGUAGES)
    case GNewsClient(_) => Returns(GNEWS_LANGUAGES)
    case NewsDataClient(_) => Panic("not yet implemented")
  }

  predicate DistinctCodes(l: LanguageList) {
    forall i, j :: 0 <= i < j < |l| ==> l[i].0 != l[j].0
  }

  predicate LowercaseCodes(l: LanguageList) {
    forall i :: 0 <= i < |l| ==> HasNoUpper(l[i].0)
  }

  /** A two-letter code as a number, and any other code as 0. */
  function CodeNumber(code: string): int {
    if |code| == 2 then 1 + code[0] as int * 0x11_0000 + code[1] as int else 0
  }

  /** The codes of `l` have increasing numbers. */
  predicate IncreasingCodes(l: LanguageList) {
    forall i :: 0 <= i < |l| - 1 ==> CodeNumber(l[i].0) < CodeNumber(l[i + 1].0)
  }

  /** Codes whose numbers increase are pairwise distinct. */
  lemma IncreasingCodesDistinct(l: LanguageList)
    requires IncreasingCodes(l)
    ensures DistinctCodes(l)
  {
    forall i, j | 0 <= i < j < |l| ensures l[i].0 != l[j].0 {
      IncreasingBetween(l, i, j);
    }
  }

  lemma {:induction false} IncreasingBetween(l: LanguageList, i: int, j: int)
    requires IncreasingCodes(l) && 0 <= i < j < |l|
    ensures CodeNumber(l[i].0) < CodeNumber(l[j].0)
    decreases j - i
  {
    if i + 1 < j {
      IncreasingBetween(l, i + 1, j);
    }
  }

  /** NewsAPI offers 15 entries, the first being "All Languages" with the empty code, and every code
      is lower case ... */
  lemma NewsApiLanguages(a: NewsApi.Client)
    ensures var l := SupportedLanguages(NewsApiClient(a)).value;
      && |l| == 15 && l[0] == ("", "All Languages") && LowercaseCodes(l)
  {
  }

  /** ... and no code appears twice. */
  lemma NewsApiCodesDistinct(a: NewsApi.Client)
    ensures DistinctCodes(SupportedLanguages(NewsApiClient(a)).value)
  {
    assert IncreasingCodes(NEWS_API_LANGUAGES);
    IncreasingCodesDistinct(NEWS_API_LANGUAGES);
  }

  /** GNews offers 41 languages with lower-case, non-empty codes: there is no "all" entry. */
  lemma GNewsLanguages(g: GNews.Client)
    ensures var l := SupportedLanguages(GNewsClient(g)).value;
      && |l| == 41 && LowercaseCodes(l)
      && forall i :: 0 <= i < |l| ==> l[i].0 != ""
  {
  }

  /** `format_language_code`: unchanged for NewsAPI and GNews, lower-cased for NewsData. */
  function FormatLanguageCode(c: Client, code: string): (r: string)
    ensures |r| == |code|
    ensures !c.NewsDataClient? ==> r == code
    ensures c.NewsDataClient? ==> HasNoUpper(r)
  {
    if c.NewsDataClient? then ToLower(code) else code
  }

  /** Formatting a code twice is formatting it once, and a code without capitals is left alone by
      every adapter, so the listed codes pass through unchanged. */
  lemma FormatLanguageCodeStable(c: Client, code: string)
    ensures FormatLanguageCode(c, FormatLanguageCode(c, code)) == FormatLanguageCode(c, code)
    ensures HasNoUpper(code) ==> FormatLanguageCode(c, code) == code
  {
    ToLowerFixesLower(code);
    ToLowerFixesLower(ToLower(code));
  }

  // --- turning a provider result into the adapter's result ---

  /** Each provider article wrapped as an article, in order. */
  function WrapAll<T>(xs: seq<T>, wrap: T -> NewsArticles.Article): (r: seq<NewsArticles.Article>)
    ensures |r| == |xs|
    ensures forall i :: 0 <= i < |xs| ==> r[i] == wrap(xs[i])
  {
    if xs == [] then [] else WrapAll(xs[..|xs| - 1], wrap) + [wrap(xs[|xs| - 1])]
  }

  function WrapNewsApi(a: NewsApi.NewsApiArticle): NewsArticles.Article { NewsArticles.FromNewsApi(a) }
  function WrapGNews(g: GNews.GNewsArticle): NewsArticles.Article { NewsArticles.FromGNews(g) }
  function WrapNewsData(d: NewsData.NewsDataArticle): NewsArticles.Article { NewsArticles.FromNewsData(d) }

  /** The NewsAPI and GNews adapters: a missing article list is an empty one; an error becomes its
      display string. */
  function FromNewsApiResult(res: Result<NewsApi.Response<NewsApi.NewsApiArticle>, NewsApi.NewsApiError>)
    : (r: Result<seq<NewsArticles.Article>, string>)
    ensures r.Ok? <==> res.Ok?
    ensures r.Err? ==> r.error == NewsApi.Display(res.error)
    ensures r.Ok? ==> var xs := res.value.articles.GetOr([]);
      |r.value| == |xs| && forall i :: 0 <= i < |xs| ==> NewsArticles.Underlying(r.value[i]) == NewsArticles.FromNewsApi(xs[i])
  {
    match res
    case Ok(response) => Ok(WrapAll(response.articles.GetOr([]), WrapNewsApi))
    case Err(e) => Err(NewsApi.Display(e))
  }

  function FromGNewsResult(res: Result<GNews.GNewsResponse, GNews.NewsError>): (r: Result<seq<NewsArticles.Article>, string>)
    ensures r.Ok? <==> res.Ok?
    ensures r.Err? ==> r.error == GNews.Display(res.error)
    ensures r.Ok? ==> var xs := res.value.articles.GetOr([]);
      |r.value| == |xs| && forall i :: 0 <= i < |xs| ==> NewsArticles.Underlying(r.value[i]) == NewsArticles.FromGNews(xs[i])
  {
    match res
    case Ok(response) => Ok(WrapAll(response.articles.GetOr([]), WrapGNews))
    case Err(e) => Err(GNews.Display(e))
  }

  /** The NewsData adapter: `results` is always present. */
  function FromNewsDataResult(res: Result<NewsData.NewsDataResponse, NewsData.NewsdataError>)
    : (r: Result<seq<NewsArticles.Article>, string>)
    ensures r.Ok? <==> res.Ok?
    ensures r.Err? ==> r.error == NewsData.Display(res.error)
    ensures r.Ok? ==> var xs := res.value.results;
      |r.value| == |xs| && forall i :: 0 <= i < |xs| ==> NewsArticles.Underlying(r.value[i]) == NewsArticles.FromNewsData(xs[i])
  {
    match res
    case Ok(response) => Ok(WrapAll(response.results, WrapNewsData))
    case Err(e) => Err(NewsData.Display(e))
  }

  /** A well-formed NewsAPI or GNews response without an article list yields no articles, not an
      error. */
  lemma MissingListIsEmpty(n: NewsApi.Response<NewsApi.NewsApiArticle>, g: GNews.GNewsResponse)
    ensures n.articles.None? ==> FromNewsApiResult(Ok(n)) == Ok([])
    ensures g.articles.None? ==> FromGNewsResult(Ok(g)) == Ok([])
  {
  }

  /** The adapted articles show the provider's titles and links, in the provider's order. */
  lemma {:induction false} AdaptersKeepOrder(n: NewsApi.Response<NewsApi.NewsApiArticle>, i: nat)
    requires n.articles.Some? && i < |n.articles.value|
    ensures var r := FromNewsApiResult(Ok(n)).value;
      i < |r| && NewsArticles.Title(r[i]) == n.articles.value[i].title && NewsArticles.Url(r[i]) == n.articles.value[i].url
      && NewsArticles.PublishedAt(r[i]) == n.articles.value[i].publishedAt
  {
    var r := FromNewsApiResult(Ok(n)).value;
    NewsArticles.SharedIsTransparent(r[i]);
  }

  // --- the fetches ---

  /** What each provider would answer to the request sent to it. */
  datatype Replies = Replies(
    newsApi: NewsApi.Reply<NewsApi.NewsApiArticle>,
    gnews: GNews.Reply,
    newsData: NewsData.Reply)

  /** The articles, or the error text, that the provider of `c` answers, whatever was asked. */
  function Answer(c: Client, replies: Replies): (r: Result<seq<NewsArticles.Article>, string>)
    ensures c.NewsApiClient? ==>
      (r.Ok? <==> replies.newsApi.Received? && NewsApi.IsSuccess(replies.newsApi.status) && replies.newsApi.asResponse.Ok?)
    ensures c.GNewsClient? ==> (r.Ok? <==> replies.gnews.Received? && replies.gnews.status == 200 && replies.gnews.body.Ok?)
    ensures c.NewsDataClient? ==>
      (r.Ok? <==> replies.newsData.Received? && replies.newsData.status == 200 && replies.newsData.body.Ok?)
    ensures c.NewsApiClient? && replies.newsApi.TransportError? ==> r == Err(replies.newsApi.friendly)
  {
    match c
    case NewsApiClient(_) => FromNewsApiResult(NewsApi.PerformRequest(replies.newsApi))
    case GNewsClient(_) => FromGNewsResult(GNews.PerformRequest(replies.gnews))
    case NewsDataClient(_) => FromNewsDataResult(NewsData.PerformRequest(replies.newsData))
  }

  /** `fetch_general`. NewsAPI asks for top headlines with six of the parameters; GNews asks for top
      headlines by category, language, country and page size (no query, no page); NewsData ignores
      the parameters and asks the market endpoint for English news. */
  method FetchGeneral(c: Client, p: Params, replies: Replies) returns (url: Url, r: Result<seq<NewsArticles.Article>, string>)
    ensures c.NewsApiClient? ==>
      && url == Url(c.newsApi.baseUrl, "/v2/top-headlines",
           Kept(NewsApi.TopHeadlinesCandidates(GetCountry(p), GetCategory(p), GetQuery(p), GetLanguage(p),
                                               GetPageSize(p), GetPage(p)))
           + [(NewsApi.API_KEY_PARAM, c.newsApi.apiKey)])
      && r == FromNewsApiResult(NewsApi.PerformRequest(replies.newsApi))
    ensures c.GNewsClient? ==>
      && url == Url(c.gnews.baseUrl, "top-headlines",
           Kept(GNews.TopHeadlinesCandidates(GetCategory(p), GetLanguage(p), GetCountry(p), GetPageSize(p)))
           + [(GNews.API_KEY_PARAM, c.gnews.apiToken)])
      && r == FromGNewsResult(GNews.PerformRequest(replies.gnews))
    ensures c.NewsDataClient? ==>
      && url == Url(c.newsData.baseUrl, NewsData.Path(NewsData.Market),
           [(NewsData.API_KEY_PARAM, c.newsData.apiToken), ("language", "en")])
      && r == FromNewsDataResult(NewsData.PerformRequest(replies.newsData))
    ensures r == Answer(c, replies)
  {
    match c
    case NewsApiClient(a) =>
      var res;
      url, res := NewsApi.FetchTopHeadlines(a, GetCountry(p), GetCategory(p), GetQuery(p), GetLanguage(p),
                                            GetPageSize(p), GetPage(p), replies.newsApi);
      r := FromNewsApiResult(res);
    case GNewsClient(g) =>
      var res;
      url, res := GNews.FetchTopHeadlines(g, GetCategory(p), GetLanguage(p), GetCountry(p), GetPageSize(p),
                                          replies.gnews);
      r := FromGNewsResult(res);
    case NewsDataClient(d) =>
      var b := new NewsData.RequestBuilder(d, NewsData.Market);
      b.Add(NewsData.Language("en"));
      var res;
      url, res := b.Fetch(replies.newsData);
      r := FromNewsDataResult(res);
  }

  /** `fetch_business`: NewsAPI asks for US business headlines, 100 per page; GNews for business
      headlines in the US; NewsData for English market news with videos. */
  method FetchBusiness(c: Client, replies: Replies) returns (url: Url, r: Result<seq<NewsArticles.Article>, string>)
    ensures c.NewsApiClient? ==>
      && url == Url(c.newsApi.baseUrl, "/v2/top-headlines",
           Kept(NewsApi.TopHeadlinesCandidates(Some("us"), Some("business"), None, None, Some(100), None))
           + [(NewsApi.API_KEY_PARAM, c.newsApi.apiKey)])
      && r == FromNewsApiResult(NewsApi.PerformRequest(replies.newsApi))
    ensures c.GNewsClient? ==>
      && url == Url(c.gnews.baseUrl, "top-headlines",
           Kept(GNews.TopHeadlinesCandidates(Some("business"), None, Some("us"), None))
           + [(GNews.API_KEY_PARAM, c.gnews.apiToken)])
      && r == FromGNewsResult(GNews.PerformRequest(replies.gnews))
    ensures c.NewsDataClient? ==>
      && url == Url(c.newsData.baseUrl, NewsData.Path(NewsData.Market),
           [(NewsData.API_KEY_PARAM, c.newsData.apiToken), ("language", "en"), ("video", "1")])
      && r == FromNewsDataResult(NewsData.PerformRequest(replies.newsData))
    ensures r == Answer(c, replies)
  {
    match c
    case NewsApiClient(a) =>
      var res;
      url, res := NewsApi.FetchTopHeadlines(a, Some("us"), Some("business"), None, None, Some(100), None,
                                            replies.newsApi);
      r := FromNewsApiResult(res);
    case GNewsClient(g) =>
      var res;
      url, res := GNews.FetchTopHeadlines(g, Some("business"), None, Some("us"), None, replies.gnews);
      r := FromGNewsResult(res);
    case NewsDataClient(d) =>
      var b := new NewsData.RequestBuilder(d, NewsData.Market);
      b.Add(NewsData.Language("en"));
      b.Add(NewsData.Video(true));
      assert NewsData.SetterPair(NewsData.Video(true)) == ("video", "1");
      var res;
      url, res := b.Fetch(replies.newsData);
      r := FromNewsDataResult(res);
  }

  /** The GNews general fetch never sends the query or the page, whatever the parameters hold. */
  lemma GNewsGeneralDropsQueryAndPage(p: Params)
    ensures var k := Kept(GNews.TopHeadlinesCandidates(GetCategory(p), GetLanguage(p), GetCountry(p), GetPageSize(p)));
      CountKey(k, "q") == 0 && CountKey(k, "page") == 0
  {
    var ps := GNews.TopHeadlinesCandidates(GetCategory(p), GetLanguage(p), GetCountry(p), GetPageSize(p));
    CandidateKeysAt(ps);
    KeptKeysFromCandidates(ps, "q");
    KeptKeysFromCandidates(ps, "page");
  }

  // --- the test fetch ---

  const TEST_TITLE := "This is an example of a news title. It could even be as long as it wants that really doesn't depend on us but on the News Provider. We jsut have to render it right "
  const TEST_DESCRIPTION := "This is an example of a news Description. It could also even be as long as it wants that really doesn't depend on us but on the News Provider. We jsut have to render it right "
  const TEST_CONTENT := "This is an example of a news Content. It could also even be as long as it wants that really doesn't depend on us but on the News Provider. We jsut have to render it right "
  const NEWS_API_TEST_URL := "https://test_news_urls.com"
  const GNEWS_TEST_URL := "https://testUrl.com"
  const TEST_COUNT := 100

  /** The `i`-th placeholder article: NewsAPI numbers its links, while GNews and NewsData both build
      the same GNews article every time. */
  function TestArticle(c: Client, i: nat, publishedAt: string): NewsArticles.Article {
    if c.NewsApiClient? then
      NewsArticles.FromNewsApi(NewsApi.NewsApiArticle(
        NewsApi.Source(Some("news_id"), "Source Name"), Some("Authour Name"), TEST_TITLE,
        Some(TEST_DESCRIPTION), NEWS_API_TEST_URL + NatToDecimal(i), Some(NEWS_API_TEST_URL),
        publishedAt, Some(TEST_CONTENT)))
    else
      NewsArticles.FromGNews(GNews.GNewsArticle(
        "article_id", TEST_TITLE, TEST_DESCRIPTION, TEST_CONTENT, GNEWS_TEST_URL, GNEWS_TEST_URL,
        publishedAt, "en", None,
        GNews.GNewsSource("Source id", "Source name", "https://SourceUrls.com", None)))
  }

  /** The date of the `i`-th placeholder article, or the empty text when the generator panics. */
  function DrawnDate(nowUtc: int, draws: Draws): string {
    match GenerateDate(nowUtc, draws)
    case Returns(d) => d
    case Panic(_) => ""
  }

  /** The placeholder articles of a test fetch whose draws are `rng`. */
  function TestArticles(c: Client, nowUtc: int, rng: nat -> Draws): (xs: seq<NewsArticles.Article>)
    ensures |xs| == TEST_COUNT
    ensures forall i :: 0 <= i < TEST_COUNT ==> xs[i] == TestArticle(c, i, DrawnDate(nowUtc, rng(i)))
  {
    seq(TEST_COUNT, i requires 0 <= i => TestArticle(c, i, DrawnDate(nowUtc, rng(i))))
  }

  /** The first `n` draws all give a date. */
  predicate DatesReturn(nowUtc: int, rng: nat -> Draws, n: nat) {
    forall j :: 0 <= j < n ==> GenerateDate(nowUtc, rng(j)).Returns?
  }

  lemma DatesReturnStep(nowUtc: int, rng: nat -> Draws, n: nat)
    requires DatesReturn(nowUtc, rng, n) && GenerateDate(nowUtc, rng(n)).Returns?
    ensures DatesReturn(nowUtc, rng, n + 1)
  {
  }

  /** The `i`-th placeholder article of a test fetch whose draws are `rng`. */
  function TestArticleAt(c: Client, nowUtc: int, rng: nat -> Draws): nat -> NewsArticles.Article {
    (i: nat) => TestArticle(c, i, DrawnDate(nowUtc, rng(i)))
  }

  /** `xs` are the first `|xs|` values of `f`. */
  ghost predicate IsPrefixOf<T>(xs: seq<T>, f: nat -> T) {
    forall j :: 0 <= j < |xs| ==> xs[j] == f(j)
  }

  lemma PrefixStep<T>(xs: seq<T>, f: nat -> T, x: T)
    requires IsPrefixOf(xs, f) && x == f(|xs|)
    ensures IsPrefixOf(xs + [x], f)
  {
    assert forall j :: 0 <= j < |xs| ==> (xs + [x])[j] == xs[j];
  }

  lemma DrawnDateOf(nowUtc: int, draws: Draws, date: string)
    requires GenerateDate(nowUtc, draws) == Returns(date)
    ensures DrawnDate(nowUtc, draws) == date
  {
  }

  /** `fetch_testnews`: 100 placeholder articles, each with a freshly generated date (the `i`-th draw
      of the generator is `rng(i)`); a generator panic ends the fetch. The parameters are ignored. */
  method FetchTestnews(c: Client, nowUtc: int, rng: nat -> Draws) returns (r: Panics<Result<seq<NewsArticles.Article>, string>>)
    ensures r.Returns? <==> forall i :: 0 <= i < TEST_COUNT ==> GenerateDate(nowUtc, rng(i)).Returns?
    ensures r.Returns? ==> r.value == Ok(TestArticles(c, nowUtc, rng))
  {
    ghost var f := TestArticleAt(c, nowUtc, rng);
    var articles: seq<NewsArticles.Article> := [];
    for i := 0 to TEST_COUNT
      invariant |articles| == i && IsPrefixOf(articles, f)
      invariant DatesReturn(nowUtc, rng, i)
    {
      var date := GenerateDate(nowUtc, rng(i));
      if date.Panic? {
        return Panic(date.reason);
      }
      DrawnDateOf(nowUtc, rng(i), date.value);
      PrefixStep(articles, f, TestArticle(c, i, date.value));
      DatesReturnStep(nowUtc, rng, i);
      articles := articles + [TestArticle(c, i, date.value)];
    }
    assert articles == TestArticles(c, nowUtc, rng);
    return Returns(Ok(articles));
  }

  /** NewsAPI's placeholder articles have pairwise distinct links. */
  lemma NewsApiTestUrlsDistinct(a: NewsApi.Client, i: nat, j: nat, d1: string, d2: string)
    requires i != j
    ensures NewsArticles.Url(TestArticle(NewsApiClient(a), i, d1)) != NewsArticles.Url(TestArticle(NewsApiClient(a), j, d2))
  {
    var u1 := NewsArticles.Url(TestArticle(NewsApiClient(a), i, d1));
    var u2 := NewsArticles.Url(TestArticle(NewsApiClient(a), j, d2));
    if u1 == u2 {
      assert u1[|NEWS_API_TEST_URL|..] == NatToDecimal(i);
      assert u2[|NEWS_API_TEST_URL|..] == NatToDecimal(j);
      NatDecimalRoundTrip(i);
      NatDecimalRoundTrip(j);
    }
  }

  /** GNews and NewsData placeholder articles all share one link. */
  lemma SharedTestUrl(c: Client, i: nat, j: nat, d1: string, d2: string)
    requires !c.NewsApiClient?
    ensures NewsArticles.Url(TestArticle(c, i, d1)) == NewsArticles.Url(TestArticle(c, j, d2)) == GNEWS_TEST_URL
  {
  }
}
