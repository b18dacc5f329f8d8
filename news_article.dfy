/** The `NewsArticle` interface (src/types/news_article.rs): the nine accessors every article kind
    offers, for the three provider article types, the history record, and a shared (`Arc`) article. */
module NewsArticles {
  import opened Wrappers
  import NewsApi
  import GNews
  import NewsData
  import opened PersistentArticles

  datatype Article =
    | FromNewsApi(newsApi: NewsApi.NewsApiArticle)
    | FromGNews(gnews: GNews.GNewsArticle)
    | FromNewsData(newsData: NewsData.NewsDataArticle)
    | FromHistory(history: PersistentArticle)
    | Shared(inner: Article)

  function Author(x: Article): (r: Option<string>)
    ensures var u := Underlying(x);
      && (u.FromNewsApi? ==> r == u.newsApi.author) && (u.FromGNews? ==> r == None)
      && (u.FromNewsData? ==> r == None) && (u.FromHistory? ==> r == None)
  {
    match x
    case FromNewsApi(a) => a.author
    case FromGNews(_) => None
    case FromNewsData(_) => None
    case FromHistory(_) => None
    case Shared(inner) => Author(inner)
  }

  function Title(x: Article): (r: string)
    ensures var u := Underlying(x);
      && (u.FromNewsApi? ==> r == u.newsApi.title) && (u.FromGNews? ==> r == u.gnews.title)
      && (u.FromNewsData? ==> r == u.newsData.title) && (u.FromHistory? ==> r == u.history.title)
  {
    match x
    case FromNewsApi(a) => a.title
    case FromGNews(g) => g.title
    case FromNewsData(d) => d.title
    case FromHistory(p) => p.title
    case Shared(inner) => Title(inner)
  }

  function Description(x: Article): (r: Option<string>)
    ensures var u := Underlying(x);
      && (u.FromNewsApi? ==> r == u.newsApi.description) && (u.FromGNews? ==> r == Some(u.gnews.description))
      && (u.FromNewsData? ==> r == u.newsData.description) && (u.FromHistory? ==> r == u.history.description)
  {
    match x
    case FromNewsApi(a) => a.description
    case FromGNews(g) => Some(g.description)
    case FromNewsData(d) => d.description
    case FromHistory(p) => p.description
    case Shared(inner) => Description(inner)
  }

  function Url(x: Article): (r: string)
    ensures var u := Underlying(x);
      && (u.FromNewsApi? ==> r == u.newsApi.url) && (u.FromGNews? ==> r == u.gnews.url)
      && (u.FromNewsData? ==> r == u.newsData.url) && (u.FromHistory? ==> r == u.history.url)
  {
    match x
    case FromNewsApi(a) => a.url
    case FromGNews(g) => g.url
    case FromNewsData(d) => d.url
    case FromHistory(p) => p.url
    case Shared(inner) => Url(inner)
  }

  function UrlToImage(x: Article): (r: Option<string>)
    ensures var u := Underlying(x);
      && (u.FromNewsApi? ==> r == u.newsApi.urlToImage) && (u.FromGNews? ==> r == Some(u.gnews.image))
      && (u.FromNewsData? ==> r == u.newsData.imageUrl) && (u.FromHistory? ==> r == Some(u.history.imageUrl))
  {
    match x
    case FromNewsApi(a) => a.urlToImage
    case FromGNews(g) => Some(g.image)
    case FromNewsData(d) => d.imageUrl
    case FromHistory(p) => Some(p.imageUrl)
    case Shared(inner) => UrlToImage(inner)
  }

  function PublishedAt(x: Article): (r: string)
    ensures var u := Underlying(x);
      && (u.FromNewsApi? ==> r == u.newsApi.publishedAt) && (u.FromGNews? ==> r == u.gnews.publishedAt)
      && (u.FromNewsData? ==> r == u.newsData.publishedAt) && (u.FromHistory? ==> r == u.history.publishedAt)
  {
    match x
    case FromNewsApi(a) => a.publishedAt
    case FromGNews(g) => g.publishedAt
    case FromNewsData(d) => d.publishedAt
    case FromHistory(p) => p.publishedAt
    case Shared(inner) => PublishedAt(inner)
  }

  function Content(x: Article): (r: Option<string>)
    ensures var u := Underlying(x);
      && (u.FromNewsApi? ==> r == u.newsApi.content) && (u.FromGNews? ==> r == Some(u.gnews.content))
      && (u.FromNewsData? ==> r == u.newsData.content) && (u.FromHistory? ==> r == u.history.content)
  {
    match x
    case FromNewsApi(a) => a.content
    case FromGNews(g) => Some(g.content)
    case FromNewsData(d) => d.content
    case FromHistory(p) => p.content
    case Shared(inner) => Content(inner)
  }

  /** The source's display name: NewsAPI and GNews report the source's name, NewsData its id, and a
      history record has none. */
  function SourceName(x: Article): (r: string)
    ensures var u := Underlying(x);
      && (u.FromNewsApi? ==> r == u.newsApi.source.name) && (u.FromGNews? ==> r == u.gnews.source.name)
      && (u.FromNewsData? ==> r == u.newsData.sourceId) && (u.FromHistory? ==> r == "")
  {
    match x
    case FromNewsApi(a) => a.source.name
    case FromGNews(g) => g.source.name
    case FromNewsData(d) => d.sourceId
    case FromHistory(_) => ""
    case Shared(inner) => SourceName(inner)
  }

  function VideoUrl(x: Article): (r: Option<string>)
    ensures var u := Underlying(x);
      && (u.FromNewsApi? ==> r == None) && (u.FromGNews? ==> r == None)
      && (u.FromNewsData? ==> r == u.newsData.videoUrl) && (u.FromHistory? ==> r == None)
  {
    match x
    case FromNewsApi(_) => None
    case FromGNews(_) => None
    case FromNewsData(d) => d.videoUrl
    case FromHistory(_) => None
    case Shared(inner) => VideoUrl(inner)
  }

  /** The article a chain of shared handles points to. */
  function Underlying(x: Article): (u: Article)
    ensures !u.Shared?
  {
    if x.Shared? then Underlying(x.inner) else x
  }

  /** A shared handle is transparent: every accessor answers as the article it points to does. */
  lemma {:induction false} SharedIsTransparent(x: Article)
    ensures var u := Underlying(x);
      && Author(x) == Author(u) && Title(x) == Title(u) && Description(x) == Description(u)
      && Url(x) == Url(u) && UrlToImage(x) == UrlToImage(u) && PublishedAt(x) == PublishedAt(u)
      && Content(x) == Content(u) && SourceName(x) == SourceName(u) && VideoUrl(x) == VideoUrl(u)
  {
    if x.Shared? { SharedIsTransparent(x.inner); }
  }

  /** Only NewsAPI articles carry an author and only NewsData articles carry a video. */
  lemma {:induction false} ProviderSpecificFields(x: Article)
    ensures Author(x).Some? ==> Underlying(x).FromNewsApi?
    ensures VideoUrl(x).Some? ==> Underlying(x).FromNewsData?
  {
    SharedIsTransparent(x);
  }

  /** GNews and history articles always offer an image URL; GNews articles always offer a
      description and content. */
  lemma {:induction false} AlwaysPresentFields(x: Article)
    ensures Underlying(x).FromGNews? ==> Description(x).Some? && Content(x).Some? && UrlToImage(x).Some?
    ensures Underlying(x).FromHistory? ==> UrlToImage(x) == Some(Underlying(x).history.imageUrl)
  {
    SharedIsTransparent(x);
  }

  /** What opening an article stores in the history: a record built from the article's own fields,
      with a missing image written as the empty string. */
  function HistoryRecord(x: Article, sha256: seq<Ints.byte> -> Digest, now: Ints.i64): (p: PersistentArticle)
    ensures p.title == Title(x) && p.url == Url(x) && p.description == Description(x)
    ensures p.content == Content(x) && p.publishedAt == PublishedAt(x)
    ensures p.imageUrl == UrlToImage(x).GetOr("")
    ensures p.id == ArticleId(Url(x), sha256) && p.visitTime == now
  {
    AutoCreate(Title(x), Url(x), Description(x), Content(x), PublishedAt(x), UrlToImage(x).GetOr(""), sha256, now)
  }

  /** Reading a stored visit back as an article returns what was shown when it was opened, except
      the author, the source name and the video, which a history record does not keep, and the image,
      which becomes present (empty if there was none). */
  lemma HistoryKeepsReadableFields(x: Article, sha256: seq<Ints.byte> -> Digest, now: Ints.i64)
    ensures var h := FromHistory(HistoryRecord(x, sha256, now));
      && Title(h) == Title(x) && Url(h) == Url(x) && Description(h) == Description(x)
      && Content(h) == Content(x) && PublishedAt(h) == PublishedAt(x)
      && UrlToImage(h) == Some(UrlToImage(x).GetOr(""))
      && Author(h) == None && SourceName(h) == "" && VideoUrl(h) == None
  {
  }

  /** Opening a history entry again stores a record with the same id and fields (only the visit
      time is refreshed). */
  lemma {:induction false} ReopeningHistoryIsStable(p: PersistentArticle, sha256: seq<Ints.byte> -> Digest, now: Ints.i64)
    requires p.id == ArticleId(p.url, sha256)
    ensures HistoryRecord(FromHistory(p), sha256, now) == p.(visitTime := now)
  {
  }
}
