/** The NewsAPI client (src/news_api): its wire types, its error type and how it is displayed, the
    client constructor, URL assembly for the three endpoints and the mapping from an HTTP reply to a
    result. The HTTP exchange itself is a parameter: a `Reply` says what came back. */
module NewsApi {
  import opened Wrappers
  import opened Ints
  import opened Text
  import opened QueryPairs

  const BASE_URL := "https://newsapi.org"
  const USER_AGENT := "FrostNews/1.0"
  const API_KEY_PARAM := "apiKey"

  datatype Source = Source(id: Option<string>, name: string)

  datatype NewsApiArticle = NewsApiArticle(
    source: Source,
    author: Option<string>,
    title: string,
    description: Option<string>,
    url: string,
    urlToImage: Option<string>,
    publishedAt: string,
    content: Option<string>)

  /** An entry of the `/v2/sources` listing. */
  datatype SourceInfo = SourceInfo(
    id: string, name: string, description: string, url: string,
    category: string, language: string, country: string)

  datatype Response<T> = Response(
    status: string,
    totalResults: Option<i32>,
    articles: Option<seq<T>>,
    sources: Option<seq<SourceInfo>>,
    code: Option<string>,
    message: Option<string>)

  /** The body NewsAPI sends with a failure status. */
  datatype ErrorBody = ErrorBody(code: Option<string>, message: Option<string>)

  /** `NewsAPICusteomError`. A network failure carries the user-facing text reqwest's error is turned
      into; a decoding failure carries serde's message. */
  datatype NewsApiError =
    | Network(friendly: string)
    | Serialization(detail: string)
    | Api(code: string, message: string)
    | Unknown

  /** The `Display` text of each error. */
  function Display(e: NewsApiError): (s: string)
    ensures e.Network? ==> s == e.friendly
    ensures e.Serialization? ==> |s| >= 12 && s[..12] == "JSON error: " && s[12..] == e.detail
    ensures e.Api? ==> s == e.message
    ensures e.Unknown? ==> s == "Unknown error occurred"
  {
    match e
    case Network(friendly) => friendly
    case Serialization(detail) => "JSON error: " + detail
    case Api(_, message) => message
    case Unknown => "Unknown error occurred"
  }

  /** An API error shows its message and never its code. */
  lemma ApiCodeNotShown(c1: string, c2: string, m: string)
    ensures Display(Api(c1, m)) == Display(Api(c2, m)) == m
  {
  }

  /** A decoding error is shown behind a fixed prefix, so its detail can be read back from the text. */
  lemma SerializationDetailRecoverable(d: string)
    ensures var t := Display(Serialization(d));
      |t| >= 12 && t[..12] == "JSON error: " && t[12..] == d
  {
  }

  /** What one HTTP exchange produced. `TransportError`: sending the request or reading its body failed.
      `Received`: the status, the body decoded as an `ErrorBody` (if it decodes as one) and the body
      decoded as a `Response` (or serde's message). */
  datatype Reply<T> =
    | TransportError(friendly: string)
    | Received(status: u16, asError: Option<ErrorBody>, asResponse: Result<Response<T>, string>)

  predicate IsSuccess(status: u16) {
    200 <= status <= 299
  }

  /** `perform_request`, from the reply on: a failed exchange is a network error; a non-success
      status is an API error built from the error body when that decodes and `Unknown` otherwise; a
      success status yields the decoded response, or a serialization error. */
  function PerformRequest<T>(reply: Reply<T>): (r: Result<Response<T>, NewsApiError>)
    ensures r.Ok? <==> reply.Received? && IsSuccess(reply.status) && reply.asResponse.Ok?
    ensures r.Ok? ==> r.value == reply.asResponse.value
    ensures reply.TransportError? ==> r == Err(Network(reply.friendly))
    ensures reply.Received? && !IsSuccess(reply.status) ==>
      r.Err? && (r.error.Api? <==> reply.asError.Some?) && (r.error.Unknown? <==> reply.asError.None?)
    ensures reply.Received? && !IsSuccess(reply.status) && reply.asError.Some? ==>
      r == Err(Api(reply.asError.value.code.GetOr(""), reply.asError.value.message.GetOr("Unknown API error")))
    ensures reply.Received? && IsSuccess(reply.status) && reply.asResponse.Err? ==>
      r == Err(Serialization(reply.asResponse.error))
  {
    match reply
    case TransportError(friendly) => Err(Network(friendly))
    case Received(status, asError, asResponse) =>
      if !IsSuccess(status) then
        match asError
        case Some(body) => Err(Api(body.code.GetOr(""), body.message.GetOr("Unknown API error")))
        case None => Err(Unknown)
      else
        match asResponse
        case Ok(parsed) => Ok(parsed)
        case Err(detail) => Err(Serialization(detail))
  }

  /** On a failure status the user sees the server's message, or a fixed text when it sent none. */
  lemma FailureStatusShowsServerMessage<T>(status: u16, body: ErrorBody, decoded: Result<Response<T>, string>)
    requires !IsSuccess(status)
    ensures var e := PerformRequest(Received(status, Some(body), decoded)).error;
      Display(e) == (if body.message.Some? then body.message.value else "Unknown API error")
  {
  }

  datatype Client = Client(apiKey: string, baseUrl: string)

  /** `NewsAPIClient::new`. Logging the first eight bytes of the key slices the key, which panics when
      it is shorter than eight bytes or when byte 8 falls inside a character. */
  function New(apiKey: string): (r: Panics<Client>)
    ensures r.Returns? <==> IsCharBoundary(apiKey, 8)
    ensures r.Returns? ==> r.value == Client(apiKey, BASE_URL)
  {
    BoundaryImpliesLength(apiKey, 8);
    if 8 > ByteLength(apiKey) then Panic("byte index 8 is out of range of the API key")
    else if !IsCharBoundary(apiKey, 8) then Panic("byte index 8 is not a char boundary of the API key")
    else Returns(Client(apiKey, BASE_URL))
  }

  /** A key shorter than eight bytes makes the constructor panic; an ASCII key of eight or more
      characters never does. */
  lemma NewPanicsOnShortKey(apiKey: string)
    ensures ByteLength(apiKey) < 8 ==> New(apiKey).Panic?
    ensures (forall i :: 0 <= i < |apiKey| ==> apiKey[i] as int < 0x80) && |apiKey| >= 8 ==> New(apiKey).Returns?
  {
    if ByteLength(apiKey) < 8 && IsCharBoundary(apiKey, 8) {
      BoundaryWithinLength(apiKey, 8);
    }
    if (forall i :: 0 <= i < |apiKey| ==> apiKey[i] as int < 0x80) && |apiKey| >= 8 {
      AsciiBoundary(apiKey, 8);
    }
  }

  /** `build_url`: the endpoint joined to the base, the kept candidates, then `apiKey`. */
  method BuildUrl(c: Client, endpoint: string, params: seq<Candidate>) returns (url: Url)
    ensures url == Url(c.baseUrl, endpoint, Kept(params) + [(API_KEY_PARAM, c.apiKey)])
  {
    var query := BuildFilteredQuery(params, API_KEY_PARAM, c.apiKey);
    url := Url(c.baseUrl, endpoint, query);
  }

  function TopHeadlinesCandidates(country: Option<string>, category: Option<string>, query: Option<string>,
                                  language: Option<string>, pageSize: Option<i32>, page: Option<i32>): seq<Candidate>
  {
    [("country", country), ("category", category), ("q", query), ("language", language),
     ("pageSize", DecimalOf(if pageSize.Some? then Some(pageSize.value as int) else None)),
     ("page", DecimalOf(if page.Some? then Some(page.value as int) else None))]
  }

  function EverythingCandidates(query: Option<string>, from: Option<string>, to: Option<string>,
                                language: Option<string>, sortBy: Option<string>,
                                pageSize: Option<i32>, page: Option<i32>): seq<Candidate>
  {
    [("q", query), ("from", from), ("to", to), ("language", language), ("sortBy", sortBy),
     ("pageSize", DecimalOf(if pageSize.Some? then Some(pageSize.value as int) else None)),
     ("page", DecimalOf(if page.Some? then Some(page.value as int) else None))]
  }

  function SourcesCandidates(category: Option<string>, language: Option<string>, country: Option<string>): seq<Candidate>
  {
    [("category", category), ("language", language), ("country", country)]
  }

  /** `fetch_top_headlines`: the request goes to `/v2/top-headlines` with the filtered options and the
      key, and its reply is mapped by `PerformRequest`. */
  method FetchTopHeadlines(c: Client, country: Option<string>, category: Option<string>, query: Option<string>,
                           language: Option<string>, pageSize: Option<i32>, page: Option<i32>,
                           reply: Reply<NewsApiArticle>)
    returns (url: Url, r: Result<Response<NewsApiArticle>, NewsApiError>)
    ensures url == Url(c.baseUrl, "/v2/top-headlines",
      Kept(TopHeadlinesCandidates(country, category, query, language, pageSize, page)) + [(API_KEY_PARAM, c.apiKey)])
    ensures r == PerformRequest(reply)
  {
    url := BuildUrl(c, "/v2/top-headlines", TopHeadlinesCandidates(country, category, query, language, pageSize, page));
    r := PerformRequest(reply);
  }

  /** `fetch_everything`, on `/v2/everything`. */
  method FetchEverything(c: Client, query: Option<string>, from: Option<string>, to: Option<string>,
                         language: Option<string>, sortBy: Option<string>, pageSize: Option<i32>, page: Option<i32>,
                         reply: Reply<NewsApiArticle>)
    returns (url: Url, r: Result<Response<NewsApiArticle>, NewsApiError>)
    ensures url == Url(c.baseUrl, "/v2/everything",
      Kept(EverythingCandidates(query, from, to, language, sortBy, pageSize, page)) + [(API_KEY_PARAM, c.apiKey)])
    ensures r == PerformRequest(reply)
  {
    url := BuildUrl(c, "/v2/everything", EverythingCandidates(query, from, to, language, sortBy, pageSize, page));
    r := PerformRequest(reply);
  }

  /** `fetch_sources`, on `/v2/sources`. */
  method FetchSources(c: Client, category: Option<string>, language: Option<string>, country: Option<string>,
                      reply: Reply<SourceInfo>)
    returns (url: Url, r: Result<Response<SourceInfo>, NewsApiError>)
    ensures url == Url(c.baseUrl, "/v2/sources",
      Kept(SourcesCandidates(category, language, country)) + [(API_KEY_PARAM, c.apiKey)])
    ensures r == PerformRequest(reply)
  {
    url := BuildUrl(c, "/v2/sources", SourcesCandidates(category, language, country));
    r := PerformRequest(reply);
  }

  /** None of the endpoints uses `apiKey` as an option, so the key is sent exactly once, last. */
  lemma ApiKeySentOnce(country: Option<string>, category: Option<string>, query: Option<string>,
                       language: Option<string>, pageSize: Option<i32>, page: Option<i32>, key: string)
    ensures var q := Kept(TopHeadlinesCandidates(country, category, query, language, pageSize, page)) + [(API_KEY_PARAM, key)];
      q[|q| - 1] == (API_KEY_PARAM, key) && CountKey(q, API_KEY_PARAM) == 1
  {
    var ps := TopHeadlinesCandidates(country, category, query, language, pageSize, page);
    CandidateKeysAt(ps);
    ApiKeyOnceAndLast(ps, API_KEY_PARAM, key);
  }

  /** A requested page is always sent, as its decimal number, as the last option before the key. */
  lemma PageAlwaysSent(country: Option<string>, category: Option<string>, query: Option<string>,
                       language: Option<string>, pageSize: Option<i32>, n: i32)
    ensures var k := Kept(TopHeadlinesCandidates(country, category, query, language, pageSize, Some(n)));
      |k| > 0 && k[|k| - 1] == ("page", IntToDecimal(n as int))
  {
    var ps := TopHeadlinesCandidates(country, category, query, language, pageSize, Some(n));
    var init := ps[..|ps| - 1];
    assert ps == init + [("page", DecimalOf(Some(n as int)))];
    LastNumberSent(init, "page", n as int);
  }
}
