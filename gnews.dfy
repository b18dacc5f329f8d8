/** The GNews client (src/gnews): wire types, the error type and its messages, URL assembly for
    `top-headlines` and `search`, and the status-to-result mapping. */
module GNews {
  import opened Wrappers
  import opened Ints
  import opened Text
  import opened QueryPairs

  const BASE_URL := "https://gnews.io/api/v4/"
  const API_KEY_PARAM := "apikey"

  datatype GNewsSource = GNewsSource(id: string, name: string, url: string, country: Option<string>)

  datatype GNewsArticle = GNewsArticle(
    id: string,
    title: string,
    description: string,
    content: string,
    url: string,
    image: string,
    publishedAt: string,
    language: string,
    country: Option<string>,
    source: GNewsSource)

  datatype GNewsResponse = GNewsResponse(totalArticles: i32, articles: Option<seq<GNewsArticle>>)

  /** `NewsError`. A network failure carries the `Display` text of reqwest's error. */
  datatype NewsError =
    | BadRequest
    | Unauthorized
    | Forbidden
    | TooManyRequests
    | InternalServerError
    | ServiceUnavailable
    | Network(detail: string)
    | Unknown(status: u16)

  /** The title of each message, the part before its first colon. */
  function Title(e: NewsError): (t: string)
    ensures t != [] && forall i :: 0 <= i < |t| ==> t[i] != ':'
  {
    match e
    case BadRequest => "Bad Request"
    case Unauthorized => "Unauthorized"
    case Forbidden => "Forbidden"
    case TooManyRequests => "Too Many Requests"
    case InternalServerError => "Internal Server Error"
    case ServiceUnavailable => "Service Unavailable"
    case Network(_) => "Network Error"
    case Unknown(_) => "Application Error"
  }

  /** The text after the title. */
  function Explanation(e: NewsError): (x: string)
    ensures e.Network? ==> x == e.detail
    ensures e.Unknown? ==> x != [] && AllDigits(x) && ParseInt(x) == e.status as int
  {
    match e
    case BadRequest => "The request was malformed."
    case Unauthorized => "Invalid or missing API key."
    case Forbidden => "Daily quota reached. Resets at 00:00 UTC."
    case TooManyRequests => "Rate limit exceeded."
    case InternalServerError => "Something went wrong on the server."
    case ServiceUnavailable => "Server is offline for maintenance."
    case Network(detail) => detail
    case Unknown(status) =>
      IntDecimalRoundTrip(status as int);
      IntToDecimal(status as int)
  }

  /** The `Display` text of each error. */
  function Display(e: NewsError): (s: string)
    ensures |s| == |Title(e)| + 2 + |Explanation(e)| && FirstColon(s) == |Title(e)|
    ensures s[..|Title(e)|] == Title(e) && s[|Title(e)|..|Title(e)| + 2] == ": " && s[|Title(e)| + 2..] == Explanation(e)
  {
    FirstColonOfTitled(Title(e), Explanation(e));
    Titled(Title(e), Explanation(e))
  }

  /** Distinct errors display distinct messages: the text shown to the user identifies the error,
      including the network detail and the unexpected status code. */
  lemma DisplayInjective(a: NewsError, b: NewsError)
    ensures Display(a) == Display(b) ==> a == b
  {
    TitleColonFree(a);
    TitleColonFree(b);
    TitledInjective(Title(a), Explanation(a), Title(b), Explanation(b));
    if Display(a) == Display(b) {
      TitleDeterminesKind(a, b);
      if a.Unknown? {
        IntDecimalInjective(a.status as int, b.status as int);
      }
    }
  }

  lemma TitleColonFree(e: NewsError)
    ensures forall i :: 0 <= i < |Title(e)| ==> Title(e)[i] != ':'
  {
  }

  /** Titles differ between kinds of error. */
  lemma TitleDeterminesKind(a: NewsError, b: NewsError)
    requires Title(a) == Title(b)
    ensures a.Unknown? <==> b.Unknown?
    ensures !a.Unknown? && Explanation(a) == Explanation(b) ==> a == b
  {
  }

  /** What one HTTP exchange produced: a failed send, or a status with the body decoded as a
      `GNewsResponse` (or reqwest's message when reading or decoding it fails). */
  datatype Reply =
    | TransportError(detail: string)
    | Received(status: u16, body: Result<GNewsResponse, string>)

  /** The status code owned by each fixed error. */
  function StatusError(status: u16): (r: Option<NewsError>)
    ensures r.Some? <==> status in {400, 401, 403, 429, 500, 503}
    ensures r.Some? ==> !r.value.Network? && !r.value.Unknown?
  {
    if status == 400 then Some(BadRequest)
    else if status == 401 then Some(Unauthorized)
    else if status == 403 then Some(Forbidden)
    else if status == 429 then Some(TooManyRequests)
    else if status == 500 then Some(InternalServerError)
    else if status == 503 then Some(ServiceUnavailable)
    else None
  }

  /** `perform_request` from the reply on: only status 200 can succeed; a 200 whose body does not
      decode is reported as a network error; the six documented codes map to their errors and every
      other code, any other 2xx included, to `Unknown` carrying the code. */
  function PerformRequest(reply: Reply): (r: Result<GNewsResponse, NewsError>)
    ensures r.Ok? <==> reply.Received? && reply.status == 200 && reply.body.Ok?
    ensures r.Ok? ==> r.value == reply.body.value
    ensures reply.TransportError? ==> r == Err(Network(reply.detail))
    ensures reply.Received? && reply.status == 200 && reply.body.Err? ==> r == Err(Network(reply.body.error))
    ensures reply.Received? && reply.status != 200 ==>
      r == Err(if StatusError(reply.status).Some? then StatusError(reply.status).value else Unknown(reply.status))
  {
    match reply
    case TransportError(detail) => Err(Network(detail))
    case Received(status, body) =>
      if status == 200 then
        match body
        case Ok(parsed) => Ok(parsed)
        case Err(detail) => Err(Network(detail))
      else if status == 400 then Err(BadRequest)
      else if status == 401 then Err(Unauthorized)
      else if status == 403 then Err(Forbidden)
      else if status == 429 then Err(TooManyRequests)
      else if status == 500 then Err(InternalServerError)
      else if status == 503 then Err(ServiceUnavailable)
      else Err(Unknown(status))
  }

  /** `StatusError` is the inverse of the code each fixed error stands for. */
  lemma StatusErrorCodes(e: NewsError)
    requires !e.Network? && !e.Unknown?
    ensures exists s: u16 :: StatusError(s) == Some(e)
  {
    match e
    case BadRequest => assert StatusError(400) == Some(e);
    case Unauthorized => assert StatusError(401) == Some(e);
    case Forbidden => assert StatusError(403) == Some(e);
    case TooManyRequests => assert StatusError(429) == Some(e);
    case InternalServerError => assert StatusError(500) == Some(e);
    case ServiceUnavailable => assert StatusError(503) == Some(e);
  }

  datatype Client = Client(apiToken: string, baseUrl: string)

  /** `GNewsClient::new`. */
  function New(apiToken: string): (c: Client)
    ensures c.apiToken == apiToken && c.baseUrl == BASE_URL
  {
    Client(apiToken, BASE_URL)
  }

  /** `build_url`, with the key sent as `apikey`. */
  method BuildUrl(c: Client, endpoint: string, params: seq<Candidate>) returns (url: Url)
    ensures url == Url(c.baseUrl, endpoint, Kept(params) + [(API_KEY_PARAM, c.apiToken)])
  {
    var query := BuildFilteredQuery(params, API_KEY_PARAM, c.apiToken);
    url := Url(c.baseUrl, endpoint, query);
  }

  function MaxOf(maxResults: Option<i32>): Option<string> {
    DecimalOf(if maxResults.Some? then Some(maxResults.value as int) else None)
  }

  function TopHeadlinesCandidates(category: Option<string>, lang: Option<string>, country: Option<string>,
                                  maxResults: Option<i32>): seq<Candidate>
  {
    [("category", category), ("lang", lang), ("country", country), ("max", MaxOf(maxResults))]
  }

  function SearchCandidates(query: string, lang: Option<string>, country: Option<string>,
                            maxResults: Option<i32>): seq<Candidate>
  {
    [("q", Some(query)), ("lang", lang), ("country", country), ("max", MaxOf(maxResults))]
  }

  /** `fetch_top_headlines`, on `top-headlines`. */
  method FetchTopHeadlines(c: Client, category: Option<string>, lang: Option<string>, country: Option<string>,
                           maxResults: Option<i32>, reply: Reply)
    returns (url: Url, r: Result<GNewsResponse, NewsError>)
    ensures url == Url(c.baseUrl, "top-headlines",
      Kept(TopHeadlinesCandidates(category, lang, country, maxResults)) + [(API_KEY_PARAM, c.apiToken)])
    ensures r == PerformRequest(reply)
  {
    url := BuildUrl(c, "top-headlines", TopHeadlinesCandidates(category, lang, country, maxResults));
    r := PerformRequest(reply);
  }

  /** `search`, on `search`. The query is always offered, and is still dropped when it is blank. */
  method Search(c: Client, query: string, lang: Option<string>, country: Option<string>,
                maxResults: Option<i32>, reply: Reply)
    returns (url: Url, r: Result<GNewsResponse, NewsError>)
    ensures url == Url(c.baseUrl, "search",
      Kept(SearchCandidates(query, lang, country, maxResults)) + [(API_KEY_PARAM, c.apiToken)])
    ensures r == PerformRequest(reply)
  {
    url := BuildUrl(c, "search", SearchCandidates(query, lang, country, maxResults));
    r := PerformRequest(reply);
  }

  /** A blank search query is not sent at all; a non-blank one is sent trimmed, as the first pair. */
  lemma SearchQueryHandling(query: string, lang: Option<string>, country: Option<string>, maxResults: Option<i32>)
    ensures var k := Kept(SearchCandidates(query, lang, country, maxResults));
      && (Trim(query) == [] ==> CountKey(k, "q") == 0)
      && (Trim(query) != [] ==> |k| > 0 && k[0] == ("q", Trim(query)))
  {
    var ps := SearchCandidates(query, lang, country, maxResults);
    var rest := ps[1..];
    assert ps == [ps[0]] + rest;
    KeptAppend([ps[0]], rest);
    KeptSnoc([], ps[0]);
    if Trim(query) == [] {
      CandidateKeysAt(rest);
      KeptKeysFromCandidates(rest, "q");
      assert Kept(ps) == Kept(rest);
    }
  }
}
