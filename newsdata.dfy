/** The NewsData client (src/newsdata): endpoints, wire types, the error type and its messages, the
    status-to-result mapping, and the request builder that accumulates query pairs before `fetch`. */
module NewsData {
  import opened Wrappers
  import opened Ints
  import opened Text
  import opened QueryPairs

  const BASE_URL := "https://newsdata.io/api/1/"
  const API_KEY_PARAM := "apikey"

  datatype Endpoint = Latest | Crypto | Archive | Sources | Market

  /** `NewsEndpoint::path`. */
  function Path(e: Endpoint): (p: string)
    ensures p != [] && forall i :: 0 <= i < |p| ==> 'a' <= p[i] <= 'z'
  {
    match e
    case Latest => "latest"
    case Crypto => "crypto"
    case Archive => "archive"
    case Sources => "sources"
    case Market => "market"
  }

  /** Each endpoint has a path of its own. */
  lemma PathInjective(a: Endpoint, b: Endpoint)
    ensures Path(a) == Path(b) ==> a == b
  {
  }

  /** A NewsData article; the free-form JSON insight fields are not modelled. */
  datatype NewsDataArticle = NewsDataArticle(
    articleId: string,
    title: string,
    url: string,
    keywords: Option<seq<string>>,
    creator: Option<seq<string>>,
    videoUrl: Option<string>,
    description: Option<string>,
    content: Option<string>,
    publishedAt: string,
    imageUrl: Option<string>,
    sourceId: string,
    sourceUrl: Option<string>,
    sourceIcon: Option<string>,
    sourcePriority: i32,
    country: seq<string>,
    category: seq<string>,
    language: string,
    pubDateTz: Option<string>,
    coin: Option<seq<string>>,
    duplicate: bool,
    dataType: string)

  datatype NewsDataResponse = NewsDataResponse(
    status: string, totalResults: i32, results: seq<NewsDataArticle>, nextPage: Option<string>)

  /** `NewsdataError`. A network failure carries the `Display` text of reqwest's error. */
  datatype NewsdataError =
    | BadRequest(reason: string)
    | Unauthorized
    | Forbidden
    | NotFound
    | ParameterDuplicate
    | UnsupportedType
    | UnprocessableEntity
    | RateLimitExceeded
    | InternalServerError
    | NetworkError(detail: string)
    | Unknown(status: u16)

  function Title(e: NewsdataError): (t: string)
    ensures t != [] && forall i :: 0 <= i < |t| ==> t[i] != ':'
  {
    match e
    case BadRequest(_) => "Bad Request"
    case Unauthorized => "Unauthorized"
    case Forbidden => "Forbidden"
    case NotFound => "Not Found"
    case ParameterDuplicate => "Conflict"
    case UnsupportedType => "Unsupported Media Type"
    case UnprocessableEntity => "Unprocessable Entity"
    case RateLimitExceeded => "Too Many Requests"
    case InternalServerError => "Internal Server Error"
    case NetworkError(_) => "Network Error"
    case Unknown(_) => "Unknown Error"
  }

  function Explanation(e: NewsdataError): string {
    match e
    case BadRequest(reason) => "Parameter missing or invalid. " + reason
    case Unauthorized => "API key is invalid or missing."
    case Forbidden => "IP/Domain restricted by CORS policy."
    case NotFound => "The page or article does not exist."
    case ParameterDuplicate => "Parameter duplicate value detected."
    case UnsupportedType => "The request format is not supported."
    case UnprocessableEntity => "Semantic error in the request."
    case RateLimitExceeded => "Rate limit exceeded for your plan."
    case InternalServerError => "An unexpected error occurred on the server."
    case NetworkError(detail) => detail
    case Unknown(status) => "Status code " + IntToDecimal(status as int)
  }

  /** The `Display` text of each error. */
  function Display(e: NewsdataError): (s: string)
    ensures |s| == |Title(e)| + 2 + |Explanation(e)| && FirstColon(s) == |Title(e)|
    ensures s[..|Title(e)|] == Title(e) && s[|Title(e)|..|Title(e)| + 2] == ": " && s[|Title(e)| + 2..] == Explanation(e)
  {
    FirstColonOfTitled(Title(e), Explanation(e));
    Titled(Title(e), Explanation(e))
  }

  lemma TitleColonFree(e: NewsdataError)
    ensures forall i :: 0 <= i < |Title(e)| ==> Title(e)[i] != ':'
  {
    match e
    case BadRequest(_) =>
    case Unauthorized =>
    case Forbidden =>
    case NotFound =>
    case ParameterDuplicate =>
    case UnsupportedType =>
    case UnprocessableEntity =>
    case RateLimitExceeded =>
    case InternalServerError =>
    case NetworkError(_) =>
    case Unknown(_) =>
  }

  lemma TitleDeterminesKind(a: NewsdataError, b: NewsdataError)
    requires Title(a) == Title(b)
    ensures a.BadRequest? <==> b.BadRequest?
    ensures a.Unknown? <==> b.Unknown?
    ensures !a.BadRequest? && !a.Unknown? && Explanation(a) == Explanation(b) ==> a == b
  {
  }

  /** Distinct errors display distinct messages, the server's reason and the unexpected code included. */
  lemma DisplayInjective(a: NewsdataError, b: NewsdataError)
    ensures Display(a) == Display(b) ==> a == b
  {
    TitleColonFree(a);
    TitleColonFree(b);
    TitledInjective(Title(a), Explanation(a), Title(b), Explanation(b));
    if Display(a) == Display(b) {
      TitleDeterminesKind(a, b);
      if a.BadRequest? {
        var p := "Parameter missing or invalid. ";
        assert a.reason == Explanation(a)[|p|..] && b.reason == Explanation(b)[|p|..];
      } else if a.Unknown? {
        var p := "Status code ";
        assert IntToDecimal(a.status as int) == Explanation(a)[|p|..];
        assert IntToDecimal(b.status as int) == Explanation(b)[|p|..];
        IntDecimalInjective(a.status as int, b.status as int);
      }
    }
  }

  /** What one HTTP exchange produced: a failed send, or a status with the body decoded as a
      `NewsDataResponse` (or reqwest's message) and, when the body is JSON at all, the string at
      `results.message`, if there is one. */
  datatype Reply =
    | TransportError(detail: string)
    | Received(status: u16, body: Result<NewsDataResponse, string>, resultsMessage: Option<string>)

  /** The fixed error of each documented status other than 200 and 400. */
  function StatusError(status: u16): (r: Option<NewsdataError>)
    ensures r.Some? <==> status in {401, 403, 404, 409, 415, 422, 429, 500}
    ensures r.Some? ==> !r.value.BadRequest? && !r.value.NetworkError? && !r.value.Unknown?
  {
    if status == 401 then Some(Unauthorized)
    else if status == 403 then Some(Forbidden)
    else if status == 404 then Some(NotFound)
    else if status == 409 then Some(ParameterDuplicate)
    else if status == 415 then Some(UnsupportedType)
    else if status == 422 then Some(UnprocessableEntity)
    else if status == 429 then Some(RateLimitExceeded)
    else if status == 500 then Some(InternalServerError)
    else None
  }

  /** `perform_request` from the reply on. Only 200 can succeed, and a 200 whose body does not decode
      is a network error; a 400 carries the server's `results.message`, or a fixed reason; the eight
      other documented codes map to their errors; every other code becomes `Unknown` with the code. */
  function PerformRequest(reply: Reply): (r: Result<NewsDataResponse, NewsdataError>)
    ensures r.Ok? <==> reply.Received? && reply.status == 200 && reply.body.Ok?
    ensures r.Ok? ==> r.value == reply.body.value
    ensures reply.TransportError? ==> r == Err(NetworkError(reply.detail))
    ensures reply.Received? && reply.status == 200 && reply.body.Err? ==> r == Err(NetworkError(reply.body.error))
    ensures reply.Received? && reply.status == 400 ==>
      r == Err(BadRequest(reply.resultsMessage.GetOr("Parameter missing or invalid")))
    ensures reply.Received? && reply.status != 200 && reply.status != 400 ==>
      r == Err(if StatusError(reply.status).Some? then StatusError(reply.status).value else Unknown(reply.status))
  {
    match reply
    case TransportError(detail) => Err(NetworkError(detail))
    case Received(status, body, resultsMessage) =>
      if status == 200 then
        match body
        case Ok(parsed) => Ok(parsed)
        case Err(detail) => Err(NetworkError(detail))
      else if status == 400 then
        Err(BadRequest(match resultsMessage case Some(m) => m case None => "Parameter missing or invalid"))
      else if status == 401 then Err(Unauthorized)
      else if status == 403 then Err(Forbidden)
      else if status == 404 then Err(NotFound)
      else if status == 409 then Err(ParameterDuplicate)
      else if status == 415 then Err(UnsupportedType)
      else if status == 422 then Err(UnprocessableEntity)
      else if status == 429 then Err(RateLimitExceeded)
      else if status == 500 then Err(InternalServerError)
      else Err(Unknown(status))
  }

  datatype Client = Client(apiToken: string, baseUrl: string)

  /** `NewsdataClient::new`. */
  function New(apiToken: string): (c: Client)
    ensures c.apiToken == apiToken && c.baseUrl == BASE_URL
  {
    Client(apiToken, BASE_URL)
  }

  /** `NewsdataClient::build_url`, with the key sent as `apikey` after the kept options. */
  method BuildUrl(c: Client, endpoint: string, params: seq<Candidate>) returns (url: Url)
    ensures url == Url(c.baseUrl, endpoint, Kept(params) + [(API_KEY_PARAM, c.apiToken)])
  {
    var query := BuildFilteredQuery(params, API_KEY_PARAM, c.apiToken);
    url := Url(c.baseUrl, endpoint, query);
  }

  /** One call of a builder setter, with its argument. */
  datatype Setter =
    | Q(v: string) | QInTitle(v: string) | QInMeta(v: string)
    | Country(v: string) | Category(v: string) | Language(v: string) | DomainUrl(v: string)
    | ExcludeCountry(v: string) | ExcludeCategory(v: string) | ExcludeDomain(v: string)
    | ExcludeLanguage(v: string) | ExcludeField(v: string)
    | Coin(v: string) | Symbol(v: string)
    | FromDate(v: string) | ToDate(v: string) | Timeframe(hours: u32) | Timezone(v: string)
    | Sentiment(v: string) | Region(v: string) | Tag(v: string) | Organization(v: string)
    | PriorityDomain(v: string)
    | FullContent(flag: bool) | Image(flag: bool) | Video(flag: bool) | RemoveDuplicate(flag: bool)
    | Size(count: u32) | Page(v: string) | Sort(v: string)

  /** `(val as i32).to_string()` on a flag. */
  function FlagText(b: bool): string {
    IntToDecimal(if b then 1 else 0)
  }

  /** The query pair a setter pushes. */
  function SetterPair(s: Setter): (p: Pair)
    ensures (s.Timeframe? || s.Size?) ==> AllDigits(p.1) && p.1 != []
    ensures (s.FullContent? || s.Image? || s.Video? || s.RemoveDuplicate?) ==> p.1 == "0" || p.1 == "1"
  {
    match s
    case Q(v) => ("q", v)
    case QInTitle(v) => ("qInTitle", v)
    case QInMeta(v) => ("qInMeta", v)
    case Country(v) => ("country", v)
    case Category(v) => ("category", v)
    case Language(v) => ("language", v)
    case DomainUrl(v) => ("domainurl", v)
    case ExcludeCountry(v) => ("excludecountry", v)
    case ExcludeCategory(v) => ("excludecategory", v)
    case ExcludeDomain(v) => ("excludedomain", v)
    case ExcludeLanguage(v) => ("excludelanguage", v)
    case ExcludeField(v) => ("excludefield", v)
    case Coin(v) => ("coin", v)
    case Symbol(v) => ("symbol", v)
    case FromDate(v) => ("from_date", v)
    case ToDate(v) => ("to_date", v)
    case Timeframe(hours) => ("timeframe", IntToDecimal(hours as int))
    case Timezone(v) => ("timezone", v)
    case Sentiment(v) => ("sentiment", v)
    case Region(v) => ("region", v)
    case Tag(v) => ("tag", v)
    case Organization(v) => ("organization", v)
    case PriorityDomain(v) => ("prioritydomain", v)
    case FullContent(flag) => ("full_content", FlagText(flag))
    case Image(flag) => ("image", FlagText(flag))
    case Video(flag) => ("video", FlagText(flag))
    case RemoveDuplicate(flag) => ("removeduplicate", FlagText(flag))
    case Size(count) => ("size", IntToDecimal(count as int))
    case Page(v) => ("page", v)
    case Sort(v) => ("sort", v)
  }

  /** Reading a flag back: "1" is true, "0" is false. */
  function ParseFlag(t: string): Option<bool> {
    if t == "1" then Some(true) else if t == "0" then Some(false) else None
  }

  /** Reading an unsigned 32-bit number back from its digits. */
  function ParseU32(t: string): Option<u32> {
    if t != [] && AllDigits(t) && DecimalValue(t) < 0x1_0000_0000 then Some(DecimalValue(t) as u32) else None
  }

  /** The setter call a query pair records (the inverse of `SetterPair`). */
  function ParseSetter(p: Pair): Option<Setter> {
    var (k, t) := p;
    if k == "q" then Some(Q(t))
    else if k == "qInTitle" then Some(QInTitle(t))
    else if k == "qInMeta" then Some(QInMeta(t))
    else if k == "country" then Some(Country(t))
    else if k == "category" then Some(Category(t))
    else if k == "language" then Some(Language(t))
    else if k == "domainurl" then Some(DomainUrl(t))
    else if k == "excludecountry" then Some(ExcludeCountry(t))
    else if k == "excludecategory" then Some(ExcludeCategory(t))
    else if k == "excludedomain" then Some(ExcludeDomain(t))
    else if k == "excludelanguage" then Some(ExcludeLanguage(t))
    else if k == "excludefield" then Some(ExcludeField(t))
    else if k == "coin" then Some(Coin(t))
    else if k == "symbol" then Some(Symbol(t))
    else if k == "from_date" then Some(FromDate(t))
    else if k == "to_date" then Some(ToDate(t))
    else if k == "timeframe" then (match ParseU32(t) case Some(h) => Some(Timeframe(h)) case None => None)
    else if k == "timezone" then Some(Timezone(t))
    else if k == "sentiment" then Some(Sentiment(t))
    else if k == "region" then Some(Region(t))
    else if k == "tag" then Some(Tag(t))
    else if k == "organization" then Some(Organization(t))
    else if k == "prioritydomain" then Some(PriorityDomain(t))
    else if k == "full_content" then (match ParseFlag(t) case Some(b) => Some(FullContent(b)) case None => None)
    else if k == "image" then (match ParseFlag(t) case Some(b) => Some(Image(b)) case None => None)
    else if k == "video" then (match ParseFlag(t) case Some(b) => Some(Video(b)) case None => None)
    else if k == "removeduplicate" then (match ParseFlag(t) case Some(b) => Some(RemoveDuplicate(b)) case None => None)
    else if k == "size" then (match ParseU32(t) case Some(n) => Some(Size(n)) case None => None)
    else if k == "page" then Some(Page(t))
    else if k == "sort" then Some(Sort(t))
    else None
  }

  lemma U32RoundTrip(n: u32)
    ensures ParseU32(IntToDecimal(n as int)) == Some(n)
  {
    NatDecimalRoundTrip(n as nat);
  }

  /** Round trip for the search and keyword setters. */
  lemma RoundTripSearch(s: Setter)
    requires s.Q? || s.QInTitle? || s.QInMeta?
    ensures ParseSetter(SetterPair(s)) == Some(s)
  {
  }

  /** Round trip for the filter setters. */
  lemma RoundTripFilters(s: Setter)
    requires s.Country? || s.Category? || s.Language? || s.DomainUrl?
    ensures ParseSetter(SetterPair(s)) == Some(s)
  {
  }

  /** Round trip for the exclusion setters. */
  lemma RoundTripExclusions(s: Setter)
    requires s.ExcludeCountry? || s.ExcludeCategory? || s.ExcludeDomain? || s.ExcludeLanguage? || s.ExcludeField?
    ensures ParseSetter(SetterPair(s)) == Some(s)
  {
  }

  /** Round trip for the crypto and market setters. */
  lemma RoundTripMarket(s: Setter)
    requires s.Coin? || s.Symbol?
    ensures ParseSetter(SetterPair(s)) == Some(s)
  {
  }

  /** Round trip for the time and archive setters. */
  lemma RoundTripTime(s: Setter)
    requires s.FromDate? || s.ToDate? || s.Timeframe? || s.Timezone?
    ensures ParseSetter(SetterPair(s)) == Some(s)
  {
    if s.Timeframe? { U32RoundTrip(s.hours); }
  }

  /** Round trip for the AI and metadata setters. */
  lemma RoundTripInsights(s: Setter)
    requires s.Sentiment? || s.Region? || s.Tag? || s.Organization? || s.PriorityDomain?
    ensures ParseSetter(SetterPair(s)) == Some(s)
  {
  }

  /** Round trip for the flag setters. */
  lemma RoundTripFlags(s: Setter)
    requires s.FullContent? || s.Image? || s.Video? || s.RemoveDuplicate?
    ensures ParseSetter(SetterPair(s)) == Some(s)
  {
  }

  /** Round trip for the pagination and sorting setters. */
  lemma RoundTripPaging(s: Setter)
    requires s.Size? || s.Page? || s.Sort?
    ensures ParseSetter(SetterPair(s)) == Some(s)
  {
    if s.Size? { U32RoundTrip(s.count); }
  }

  /** Every setter records its call faithfully: the pushed pair reads back as the same call. Hence
      no two setters share a key, flags are sent as "1"/"0" and numbers in decimal, losslessly. */
  lemma SetterRoundTrip(s: Setter)
    ensures ParseSetter(SetterPair(s)) == Some(s)
  {
    if s.Q? || s.QInTitle? || s.QInMeta? { RoundTripSearch(s); }
    if s.Country? || s.Category? || s.Language? || s.DomainUrl? { RoundTripFilters(s); }
    if s.ExcludeCountry? || s.ExcludeCategory? || s.ExcludeDomain? || s.ExcludeLanguage? || s.ExcludeField? { RoundTripExclusions(s); }
    if s.Coin? || s.Symbol? { RoundTripMarket(s); }
    if s.FromDate? || s.ToDate? || s.Timeframe? || s.Timezone? { RoundTripTime(s); }
    if s.Sentiment? || s.Region? || s.Tag? || s.Organization? || s.PriorityDomain? { RoundTripInsights(s); }
    if s.FullContent? || s.Image? || s.Video? || s.RemoveDuplicate? { RoundTripFlags(s); }
    if s.Size? || s.Page? || s.Sort? { RoundTripPaging(s); }
  }

  lemma SetterPairInjective(a: Setter, b: Setter)
    ensures SetterPair(a) == SetterPair(b) ==> a == b
  {
    SetterRoundTrip(a);
    SetterRoundTrip(b);
  }

  /** `NewsRequestBuilder`: the client it was opened on, the endpoint, and the pairs pushed so far. */
  class RequestBuilder {
    const client: Client
    const endpoint: Endpoint
    var params: seq<Pair>

    /** `NewsdataClient::endpoint`, which opens a builder with no options. */
    constructor (client: Client, endpoint: Endpoint)
      ensures this.client == client && this.endpoint == endpoint && params == []
    {
      this.client := client;
      this.endpoint := endpoint;
      params := [];
    }

    /** Any setter: it pushes exactly its own pair at the end and leaves the earlier ones alone. */
    method Add(s: Setter)
      modifies this
      ensures params == old(params) + [SetterPair(s)]
    {
      params := params + [SetterPair(s)];
    }

    /** `fetch`: the key goes first, then every pushed pair in push order, untrimmed and unfiltered. */
    method Fetch(reply: Reply) returns (url: Url, r: Result<NewsDataResponse, NewsdataError>)
      ensures url == Url(client.baseUrl, Path(endpoint), [(API_KEY_PARAM, client.apiToken)] + params)
      ensures r == PerformRequest(reply)
    {
      var query := [(API_KEY_PARAM, client.apiToken)];
      for i := 0 to |params|
        invariant query == [(API_KEY_PARAM, client.apiToken)] + params[..i]
      {
        assert params[..i + 1] == params[..i] + [params[i]];
        var (k, v) := params[i];
        query := query + [(k, v)];
      }
      assert params[..|params|] == params;
      url := Url(client.baseUrl, Path(endpoint), query);
      r := PerformRequest(reply);
    }
  }

  /** The pairs a chain of setter calls leaves in a fresh builder. */
  function PairsOf(calls: seq<Setter>): (ps: seq<Pair>)
    ensures |ps| == |calls|
    ensures forall i :: 0 <= i < |calls| ==> ps[i] == SetterPair(calls[i])
  {
    if calls == [] then [] else PairsOf(calls[..|calls| - 1]) + [SetterPair(calls[|calls| - 1])]
  }

  /** A chain of setter calls can be read back, in order, from the query. */
  lemma ChainRoundTrip(calls: seq<Setter>)
    ensures forall i :: 0 <= i < |calls| ==> ParseSetter(PairsOf(calls)[i]) == Some(calls[i])
  {
    forall i | 0 <= i < |calls| ensures ParseSetter(PairsOf(calls)[i]) == Some(calls[i]) {
      SetterRoundTrip(calls[i]);
    }
  }

  /** Applying a chain of setters to a fresh builder leaves exactly the chain's pairs. */
  method Chain(client: Client, endpoint: Endpoint, calls: seq<Setter>) returns (b: RequestBuilder)
    ensures fresh(b) && b.client == client && b.endpoint == endpoint
    ensures b.params == PairsOf(calls)
  {
    b := new RequestBuilder(client, endpoint);
    for i := 0 to |calls|
      invariant b.client == client && b.endpoint == endpoint
      invariant b.params == PairsOf(calls[..i])
    {
      assert calls[..i + 1][..i] == calls[..i];
      b.Add(calls[i]);
    }
    assert calls[..|calls|] == calls;
  }
}
