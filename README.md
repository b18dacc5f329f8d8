# Frost News core, modelled in Dafny

Frost News is a GTK news reader. It fetches articles from one of three providers: NewsAPI, GNews or
NewsData. It files the articles under relative-time labels ("Today", "Yesterday", "This Monday", …,
"Last year") and shows them one section per label on a category page, one provider page at a time.
Every article the user opens goes into a visit history in SQLite, and a history page lists the ten
newest visits grouped by day.

This project models that core as Dafny code and proves properties of it. It covers:

- the query parameters and the three provider clients: URL assembly, HTTP status handling, error
  messages, and the NewsData request builder;
- the adapters that turn each provider's response into a list of articles, and the placeholder
  "test news" generator;
- the language and section tables, and the settings store;
- the fetch orchestrator, the time bucketing and label ranking, the category page's message handling
  and its page cache;
- the tile grid of a section, and the shared image cache;
- the history table, the history worker and the history page.

Files follow the source, one module per source file:

- `request_parameters.dfy`, `query_pairs.dfy`: the query options and the `build_url` loop;
- `news_api.dfy`, `gnews.dfy`, `newsdata.dfy`: the three provider clients;
- `news_client.dfy`: the provider adapters;
- `news_article.dfy`, `persistent_article.dfy`: articles and history records;
- `news_language.dfy`, `sections.dfy`, `settings.dfy`: languages, sections and settings;
- `time_organizer.dfy`, `generator.dfy`, `fetch_service.dfy`: time labels, test dates and fetching;
- `category_page.dfy`, `pagination.dfy`, `categorised_news.dfy`: the category page;
- `image_cache.dfy`: the image cache;
- `history_store.dfy`, `history_worker.dfy`, `history_page.dfy`: the history;
- `wrappers.dfy`, `ints.dfy`, `text.dfy`, `calendar.dfy`, `grouping.dfy`, `collections.dfy`: shared
  helpers. These cover Rust's `Option`/`Result` and panics, fixed-width integers, `str::trim`,
  decimal rendering, UTF-8, ASCII lower-casing, chrono's proleptic Gregorian calendar, group-by into
  a map, and sums and ascending order over maps.

How the model represents the source:

- A Rust panic (`&key[..8]`, `todo!()`, `unwrap()` on `None`) is a `Panics` value (`Returns(v)` or
  `Panic(reason)`), never a precondition.
- State the source changes in place is a Dafny class with the updated fields. This covers:
  - the NewsData request builder;
  - the settings store, the fetch service and the category page;
  - the page cache and the tile section;
  - the image cache;
  - the history table, the worker and the history page.
- The outside world is passed in as parameters:
  - HTTP replies and what they decode to;
  - the clock, the local time zone and the RFC 3339 / RFC 2822 parsers;
  - SHA-256, the random draws, and the outcome of each SQLite statement.

The source is followed where it differs from its documentation. For example:

- the non-2026 branch of `generate_date` draws the day from the month list, so the day lies between
  1 and 11;
- the NewsData request builder sends the key first and does not trim or filter its options;
- NewsData's `supported_languages` is a `todo!`, so it panics.

## Model

| member | source | states |
|---|---|---|
| Wrappers.CompareInt | src/utils/time_organizer.rs:85-88 | `cmp` on integers: `Equal` exactly on equal values, `Less` exactly when the first is smaller |
| RequestParameters.New | src/types/request_parameters.rs:15-27 | a fresh parameter set has every one of the nine options unset |
| RequestParameters.SetLanguage | src/types/request_parameters.rs:34-37 | the language reads back as the given text and no other option changes |
| RequestParameters.SetCountry | src/types/request_parameters.rs:39-42 | the country reads back as the given text and no other option changes |
| RequestParameters.SetQuery | src/types/request_parameters.rs:44-47 | the query reads back as the given text and no other option changes |
| RequestParameters.SetFrom | src/types/request_parameters.rs:49-52 | the start date reads back as the given text and no other option changes |
| RequestParameters.SetTo | src/types/request_parameters.rs:54-57 | the end date reads back as the given text and no other option changes |
| RequestParameters.SetPageSize | src/types/request_parameters.rs:59-62 | the page size reads back as the given number and no other option changes |
| RequestParameters.SetPage | src/types/request_parameters.rs:64-67 | the page reads back as the given number and no other option changes |
| RequestParameters.SetCategory | src/types/request_parameters.rs:69-72 | the category reads back as the given text and no other option changes |
| RequestParameters.SetSortBy | src/types/request_parameters.rs:74-77 | the sort order reads back as the given text and no other option changes |
| RequestParameters.Extensionality | src/types/request_parameters.rs:2-12 | two parameter sets whose nine options all read the same are equal |
| RequestParameters.GetAfterSet | src/types/request_parameters.rs:82-117 | each typed getter returns what its setter stored |
| RequestParameters.LastSetWins | src/types/request_parameters.rs:34-77 | setting an option twice is the same as setting it once to the last value |
| RequestParameters.SettersCommute | src/types/request_parameters.rs:34-77 | setters of different options can be applied in either order |
| Text.Trim | src/news_api/news_api_client.rs:40-41 | `trim` leaves no whitespace at either end, and the result is empty exactly when the input is all whitespace |
| Text.TrimIsInfix | src/news_api/news_api_client.rs:40 | the trimmed text is the contiguous piece of the input that follows the leading whitespace |
| Text.TrimDropsWhitespace | src/news_api/news_api_client.rs:40 | what trimming cuts off on either side is whitespace only |
| Text.TrimIdempotent | src/news_api/news_api_client.rs:40 | trimming twice is trimming once |
| Text.NatDecimalRoundTrip | src/news_api/news_api_client.rs:117-118 | the decimal digits of a natural number read back as that number |
| Text.IntDecimalRoundTrip | src/news_api/news_api_client.rs:117-118 | an `i32::to_string` rendering is well formed (optional minus sign, then digits) and reads back as the same integer |
| Text.IntDecimalInjective | src/news_api/news_api_client.rs:117-118 | distinct integers render to distinct strings |
| Text.TitledInjective | src/gnews/data_structures.rs:36-50 | with colon-free titles, a "Title: text" message determines both its title and its text |
| Text.ToLower | src/types/news_client.rs:273-275 | lower-casing keeps the length and maps each character to its lower-case form |
| Text.ToLowerFixesLower | src/types/news_client.rs:273-275 | lower-casing leaves no capital letter, and changes nothing in a text without one |
| Text.Utf8 | src/types/persistent_articel.rs:25 | the UTF-8 bytes of a string, one to four per character, have its byte length |
| Text.EncodeCharRoundTrip | src/types/persistent_articel.rs:25 | the lead byte of a character's UTF-8 encoding announces its width, and the bytes decode back to the character |
| Text.Utf8Injective | src/types/persistent_articel.rs:25 | distinct strings have distinct UTF-8 bytes |
| Text.BoundaryImpliesLength | src/news_api/news_api_client.rs:20 | a character boundary never lies beyond the end of the string |
| Text.AsciiBoundary | src/news_api/news_api_client.rs:20 | in an ASCII string every byte offset up to the length is a character boundary |
| QueryPairs.BuildFilteredQuery | src/news_api/news_api_client.rs:36-47 | the `build_url` loop emits exactly the filtered, trimmed candidates in order and then the API key |
| QueryPairs.KeptExactly | src/news_api/news_api_client.rs:38-45 | the j-th emitted pair is the key and trimmed value of the j-th candidate whose value is present and not blank, and a candidate is emitted exactly when its value is present and not blank |
| QueryPairs.KeptSnoc | src/news_api/news_api_client.rs:38-45 | one more candidate adds at most its own trimmed pair at the end |
| QueryPairs.KeptAppend | src/news_api/news_api_client.rs:38-45 | candidates are filtered independently of one another |
| QueryPairs.LastNumberSent | src/news_api/news_api_client.rs:117-118 | a number placed last among the candidates is the last pair emitted, as its decimal text |
| QueryPairs.KeptValuesTrimmed | src/news_api/news_api_client.rs:40-42 | every emitted value is non-empty and has no surrounding whitespace |
| QueryPairs.KeptKeysFromCandidates | src/news_api/news_api_client.rs:38-45 | a key that no candidate carries is never emitted |
| QueryPairs.CountKeyAppend | src/news_api/news_api_client.rs:42-46 | the number of pairs carrying a key adds up over concatenation |
| QueryPairs.BlankNeverSent | src/news_api/news_api_client.rs:39-43 | a candidate with a missing or blank value is never sent |
| QueryPairs.ApiKeyOnceAndLast | src/news_api/news_api_client.rs:46 | when no candidate uses the key's name, the API key is sent exactly once, as the last pair |
| QueryPairs.NumberAlwaysEmitted | src/news_api/news_api_client.rs:117-118 | a present number is never blank, so it is always sent, untouched by trimming |
| NewsApi.Display | src/news_api/data_structures.rs:57-72 | a network error shows the friendly text, a decoding error "JSON error: " and the detail, an API error its message only, and `Unknown` "Unknown error occurred" |
| NewsApi.ApiCodeNotShown | src/news_api/data_structures.rs:64-68 | an API error displays its message and never its code |
| NewsApi.SerializationDetailRecoverable | src/news_api/data_structures.rs:61-62 | a decoding error displays as "JSON error: " followed by its detail, so the detail can be read back |
| NewsApi.PerformRequest | src/news_api/news_api_client.rs:54-96 | success exactly on a success status whose body decodes; a failed send is a network error; a failure status gives the server's error, with code "" and message "Unknown API error" when absent, or `Unknown`; a success whose body does not decode gives a decoding error |
| NewsApi.FailureStatusShowsServerMessage | src/news_api/news_api_client.rs:75-84 | on a failure status with an error body, the user sees the server's message, or "Unknown API error" when it sent none |
| NewsApi.New | src/news_api/news_api_client.rs:16-27 | the constructor returns a client on `https://newsapi.org` with the key exactly when byte 8 of the key is a character boundary, and panics otherwise |
| NewsApi.NewPanicsOnShortKey | src/news_api/news_api_client.rs:20 | a key shorter than eight bytes makes the constructor panic, and an ASCII key of eight or more characters does not |
| NewsApi.BuildUrl | src/news_api/news_api_client.rs:29-52 | the URL is the endpoint on the base, with the kept candidates and then `apiKey` |
| NewsApi.FetchTopHeadlines | src/news_api/news_api_client.rs:98-124 | the request goes to `/v2/top-headlines` with country, category, q, language, pageSize and page filtered in that order; the result is the exchange's outcome |
| NewsApi.FetchEverything | src/news_api/news_api_client.rs:126-154 | the request goes to `/v2/everything` with q, from, to, language, sortBy, pageSize and page filtered in that order |
| NewsApi.FetchSources | src/news_api/news_api_client.rs:156-176 | the request goes to `/v2/sources` with category, language and country filtered in that order |
| NewsApi.ApiKeySentOnce | src/news_api/news_api_client.rs:109-121 | a top-headlines query carries the key exactly once, as its last pair |
| NewsApi.PageAlwaysSent | src/news_api/news_api_client.rs:117-118 | a requested page is always sent, as its decimal number, as the last option before the key |
| GNews.Title | src/gnews/data_structures.rs:35-51 | every error has a non-empty title without a colon |
| GNews.Explanation | src/gnews/data_structures.rs:35-51 | a network error explains itself by reqwest's text and `Unknown` by its status code |
| GNews.Display | src/gnews/data_structures.rs:35-51 | a message is its title, ": " and its explanation, and its first colon ends the title |
| GNews.DisplayInjective | src/gnews/data_structures.rs:35-51 | distinct errors display distinct messages |
| GNews.TitleColonFree | src/gnews/data_structures.rs:36-50 | no message title contains a colon |
| GNews.TitleDeterminesKind | src/gnews/data_structures.rs:36-50 | equal titles mean the same kind of error, and the same error when the texts also agree |
| GNews.PerformRequest | src/gnews/gnews_client.rs:47-72 | only status 200 with a decodable body succeeds; a failed send or an undecodable body is a network error; each documented status gives its own error and any other status gives `Unknown` with that code |
| GNews.StatusError | src/gnews/gnews_client.rs:58-70 | a fixed error exactly for 400, 401, 403, 429, 500 and 503, never a network or `Unknown` error |
| GNews.StatusErrorCodes | src/gnews/gnews_client.rs:64-69 | every fixed error is produced by some status code |
| GNews.New | src/gnews/gnews_client.rs:14-20 | the client keeps the token and uses `https://gnews.io/api/v4/` |
| GNews.BuildUrl | src/gnews/gnews_client.rs:22-45 | the URL is the endpoint on the base, with the kept candidates and then `apikey` |
| GNews.FetchTopHeadlines | src/gnews/gnews_client.rs:75-95 | the request goes to `top-headlines` with category, lang, country and max filtered in that order |
| GNews.Search | src/gnews/gnews_client.rs:98-118 | the request goes to `search` with q, lang, country and max filtered in that order |
| GNews.SearchQueryHandling | src/gnews/gnews_client.rs:107-113 | a blank search query is not sent at all, and a non-blank one is sent trimmed, as the first pair |
| NewsData.Path | src/newsdata/newsdata_client.rs:14-23 | every endpoint path is a non-empty run of lower-case letters |
| NewsData.PathInjective | src/newsdata/newsdata_client.rs:14-23 | each endpoint has its own path |
| NewsData.TitleColonFree | src/newsdata/datap_structures.rs:54-75 | no message title contains a colon |
| NewsData.TitleDeterminesKind | src/newsdata/datap_structures.rs:54-75 | equal titles mean the same kind of error, and the same error for fixed kinds whose texts agree |
| NewsData.Title | src/newsdata/datap_structures.rs:53-76 | every error has a non-empty title without a colon |
| NewsData.Display | src/newsdata/datap_structures.rs:53-76 | a message is its title, ": " and its explanation, and its first colon ends the title |
| NewsData.DisplayInjective | src/newsdata/datap_structures.rs:53-76 | distinct errors display distinct messages, the server's reason and the unexpected code included |
| NewsData.StatusError | src/newsdata/newsdata_client.rs:90-98 | a fixed error exactly for 401, 403, 404, 409, 415, 422, 429 and 500, never a bad request, network or `Unknown` error |
| NewsData.PerformRequest | src/newsdata/newsdata_client.rs:65-100 | only status 200 with a decodable body succeeds; status 400 carries the server's message or "Parameter missing or invalid"; each documented status gives its own error and any other gives `Unknown` |
| NewsData.New | src/newsdata/newsdata_client.rs:33-39 | the client keeps the token and uses `https://newsdata.io/api/1/` |
| NewsData.BuildUrl | src/newsdata/newsdata_client.rs:41-63 | the URL is the endpoint on the base, with the kept candidates and then `apikey` |
| NewsData.U32RoundTrip | src/newsdata/newsdata_client.rs:144 | an unsigned number's decimal text reads back as the number |
| NewsData.RoundTripSearch | src/newsdata/newsdata_client.rs:120-122 | the search setters' pairs read back as the same calls |
| NewsData.RoundTripFilters | src/newsdata/newsdata_client.rs:125-128 | the filter setters' pairs read back as the same calls |
| NewsData.RoundTripExclusions | src/newsdata/newsdata_client.rs:131-135 | the exclusion setters' pairs read back as the same calls |
| NewsData.RoundTripMarket | src/newsdata/newsdata_client.rs:138-139 | the crypto and market setters' pairs read back as the same calls |
| NewsData.RoundTripTime | src/newsdata/newsdata_client.rs:142-145 | the time setters' pairs read back as the same calls, the hour count included |
| NewsData.RoundTripInsights | src/newsdata/newsdata_client.rs:148-152 | the metadata setters' pairs read back as the same calls |
| NewsData.RoundTripFlags | src/newsdata/newsdata_client.rs:155-158 | the flag setters' "1"/"0" pairs read back as the same calls |
| NewsData.RoundTripPaging | src/newsdata/newsdata_client.rs:161-163 | the size, page and sort setters' pairs read back as the same calls |
| NewsData.SetterPair | src/newsdata/newsdata_client.rs:120-163 | numeric setters push decimal digits and flag setters "0" or "1" |
| NewsData.SetterRoundTrip | src/newsdata/newsdata_client.rs:120-163 | every setter records its call faithfully: its pair reads back as the same call |
| NewsData.SetterPairInjective | src/newsdata/newsdata_client.rs:120-163 | distinct setter calls push distinct pairs |
| NewsData.RequestBuilder.constructor | src/newsdata/newsdata_client.rs:103-117 | `endpoint` opens a builder on that client and endpoint with no options |
| NewsData.RequestBuilder.Add | src/newsdata/newsdata_client.rs:120-163 | a setter pushes exactly its own pair at the end and leaves the earlier ones alone |
| NewsData.RequestBuilder.Fetch | src/newsdata/newsdata_client.rs:166-176 | `fetch` sends the key first, then every pushed pair in push order, untrimmed and unfiltered, and returns the exchange's outcome |
| NewsData.PairsOf | src/newsdata/newsdata_client.rs:120-163 | a chain of setter calls leaves one pair per call, in call order |
| NewsData.ChainRoundTrip | src/newsdata/newsdata_client.rs:120-163 | a chain of setter calls reads back, in order, from the query |
| NewsData.Chain | src/newsdata/newsdata_client.rs:103-163 | setter calls on a fresh builder leave exactly the chain's pairs |
| NewsArticles.Author | src/types/news_article.rs:19-185 | through any number of shared handles: an author only for NewsAPI articles, as NewsAPI sent it |
| NewsArticles.Title | src/types/news_article.rs:19-185 | through any number of shared handles: the title each kind of article carries |
| NewsArticles.Description | src/types/news_article.rs:19-185 | through any number of shared handles: the description, always present for GNews |
| NewsArticles.Url | src/types/news_article.rs:19-185 | through any number of shared handles: the link each kind of article carries |
| NewsArticles.UrlToImage | src/types/news_article.rs:19-185 | through any number of shared handles: the image link, always present for GNews and history records |
| NewsArticles.PublishedAt | src/types/news_article.rs:19-185 | through any number of shared handles: the publication date each kind of article carries |
| NewsArticles.Content | src/types/news_article.rs:19-185 | through any number of shared handles: the content, always present for GNews |
| NewsArticles.SourceName | src/types/news_article.rs:19-185 | through any number of shared handles: the source's name for NewsAPI and GNews, the source id for NewsData, "" for a history record |
| NewsArticles.VideoUrl | src/types/news_article.rs:19-185 | through any number of shared handles: a video link only for NewsData articles |
| NewsArticles.SharedIsTransparent | src/types/news_article.rs:19-29 | a shared handle answers all nine accessors as the article it points to does |
| NewsArticles.ProviderSpecificFields | src/types/news_article.rs:31-185 | only NewsAPI articles carry an author, and only NewsData articles carry a video |
| NewsArticles.AlwaysPresentFields | src/types/news_article.rs:71-107 | GNews articles always offer a description, content and image; history articles always offer their stored image |
| NewsArticles.HistoryRecord | src/pages/category_page.rs:463-494 | the record stored on opening an article has that article's title, link, description, content and date, its image or "" when it has none, the id derived from its link, and now as the visit time |
| NewsArticles.HistoryKeepsReadableFields | src/types/news_article.rs:149-185 | a visit read back from the history shows the opened article's title, link, description, content and date; the missing image becomes ""; author, source and video are lost |
| NewsArticles.ReopeningHistoryIsStable | src/types/news_article.rs:149-185 | reopening a history entry stores the same record again, except for the visit time |
| PersistentArticles.HexDigitValue | src/types/persistent_articel.rs:26 | a digit reads back as its nibble |
| PersistentArticles.Hex | src/types/persistent_articel.rs:26 | `hex::encode` writes two lower-case digits per byte |
| PersistentArticles.HexRoundTrip | src/types/persistent_articel.rs:26 | hexadecimal encoding loses nothing: it decodes back to the same bytes |
| PersistentArticles.HexInjective | src/types/persistent_articel.rs:26 | distinct byte strings encode to distinct texts |
| PersistentArticles.ArticleId | src/types/persistent_articel.rs:24-26 | an id is 64 hexadecimal digits that decode to the SHA-256 of the URL's UTF-8 bytes |
| PersistentArticles.IdsCollideOnlyWithDigests | src/types/persistent_articel.rs:24-26 | two URLs share an id exactly when their digests agree |
| PersistentArticles.IdsDistinguishUrls | src/types/persistent_articel.rs:24-26 | when SHA-256 does not collide on the two URLs' bytes, equal ids mean equal URLs |
| PersistentArticles.AutoCreate | src/types/persistent_articel.rs:16-39 | the record has the URL's id, the clock reading as its visit time, and the given fields unchanged |
| PersistentArticles.RevisitKeepsId | src/types/persistent_articel.rs:16-39 | saving the same URL twice gives the same id, whatever else differs |
| Generator.PadTwoDigits | src/utils/generator.rs:48-53 | between 0 and 99 the padded number is two digits that read back as the number |
| Generator.Choose | src/utils/generator.rs:12 | `choose` returns nothing exactly on an empty list, and otherwise an element of it |
| Generator.Range | src/utils/generator.rs:17 | `(lo..hi).collect()` lists lo, lo+1, …, hi-1 |
| Generator.RangeMembers | src/utils/generator.rs:17 | a number is in the range exactly when lo <= x < hi |
| Generator.GenerateDatePanics | src/utils/generator.rs:14-24 | the generator panics exactly when it picks 2026 on the first day of a month (the day range is empty) |
| Generator.DateTextParts | src/utils/generator.rs:20-25 | a date text has the fixed format, with the year, padded month and padded day at their places |
| Generator.GeneratedDateShape | src/utils/generator.rs:8-46 | every generated date has the fixed format; a 2026 date is in January before today's day; any other date has month and day between 1 and 11 |
| NewsClients.NamesCollide | src/types/news_client.rs:29-31 | the GNews adapter reports the same name as the NewsAPI one, and NewsData a different one |
| NewsClients.SupportedLanguages | src/types/news_client.rs:269-271 | the language list panics exactly for NewsData |
| NewsClients.NewsApiLanguages | src/types/news_client.rs:33-51 | NewsAPI offers 15 entries with lower-case codes, the first being "All Languages" with the empty code |
| NewsClients.NewsApiCodesDistinct | src/types/news_client.rs:33-51 | no NewsAPI language code appears twice |
| NewsClients.GNewsLanguages | src/types/news_client.rs:143-187 | GNews offers 41 languages with lower-case, non-empty codes, so it has no "all" entry |
| NewsClients.FormatLanguageCode | src/types/news_client.rs:53-55 | a code is kept as it is for NewsAPI and GNews, and lower-cased for NewsData |
| NewsClients.FormatLanguageCodeStable | src/types/news_client.rs:273-275 | formatting a code twice is formatting it once, and a code without capitals is left alone |
| NewsClients.WrapAll | src/types/news_client.rs:75-78 | each provider article is wrapped, one for one, in order |
| NewsClients.FromNewsApiResult | src/types/news_client.rs:72-82 | success exactly on success; the error is the error's display text; a missing list is empty; the articles come in provider order |
| NewsClients.FromGNewsResult | src/types/news_client.rs:206-216 | success exactly on success; the error is the error's display text; a missing list is empty; the articles come in provider order |
| NewsClients.FromNewsDataResult | src/types/news_client.rs:286-302 | success exactly on success; the error is the error's display text; the articles come in provider order |
| NewsClients.MissingListIsEmpty | src/types/news_client.rs:74 | a well-formed NewsAPI or GNews response without an article list gives no articles, not an error |
| NewsClients.AdaptersKeepOrder | src/types/news_client.rs:74-78 | the i-th adapted article shows the provider's i-th title, link and date |
| NewsClients.Answer | src/types/news_client.rs:72-82 | a provider answers articles exactly when its exchange succeeded with a decoded body; a failed NewsAPI send shows reqwest's friendly text |
| NewsClients.FetchGeneral | src/types/news_client.rs:57-83 | NewsAPI asks for top headlines with six of the parameters, GNews with four (no query, no page), NewsData asks the market endpoint in English; the result is each provider's adapted answer |
| NewsClients.FetchBusiness | src/types/news_client.rs:85-108 | NewsAPI asks for US business headlines with 100 per page, GNews for US business headlines, NewsData for English market news with video |
| NewsClients.GNewsGeneralDropsQueryAndPage | src/types/news_client.rs:193-204 | the GNews general fetch never sends the query or the page, whatever the parameters hold |
| NewsClients.TestArticles | src/types/news_client.rs:110-134 | there are 100 placeholder articles, the i-th built from the i-th generated date |
| NewsClients.FetchTestnews | src/types/news_client.rs:110-134 | the test fetch returns exactly when no date draw panics, and then returns the 100 placeholder articles in order |
| NewsClients.NewsApiTestUrlsDistinct | src/types/news_client.rs:121 | NewsAPI's placeholder articles have pairwise distinct links |
| NewsClients.SharedTestUrl | src/types/news_client.rs:237-260 | GNews and NewsData placeholder articles all share one link |
| NewsLanguages.AsStr | src/types/news_language.rs:10-15 | the default is the empty text and a code is itself |
| NewsLanguages.FindCode | src/types/news_language.rs:22 | the position of the first entry with that code, or none when no entry has it |
| NewsLanguages.FromStr | src/types/news_language.rs:18-27 | the empty text is the default; any other text is that code exactly when it is listed, and the default otherwise |
| NewsLanguages.DisplayName | src/types/news_language.rs:30-38 | "All Languages" for the default, "Unknown" for an unlisted code |
| NewsLanguages.DisplayNameOfListed | src/types/news_language.rs:33-36 | a listed code shows the name of its first entry |
| NewsLanguages.LanguageRoundTrip | src/types/news_language.rs:10-27 | the default or a non-empty listed code survives `as_str` then `from_str`; reading a text keeps it exactly when it is listed |
| NewsLanguages.FromStrStable | src/types/news_language.rs:10-27 | what `from_str` returns reads back to itself |
| Sections.ToKeyRoundTrip | src/types/news_category.rs:13-15 | a section's key names that section back |
| Sections.ToKeyInjective | src/types/news_category.rs:13-15 | two sections have the same key exactly when they are the same section |
| Sections.KeysDisjoint | src/components/sidebar.rs:15-19 | no section key equals a navigation page key, so both can share one page stack |
| Sections.SectionOrder | src/data/sections.rs:10-47 | the sidebar table lists six sections: Business, Health, Entertainment, Technology, Science, Sports |
| Sections.SectionEntriesAgree | src/data/sections.rs:10-47 | each entry's name is its section's key and its id is that name in lower case; General is not listed |
| Sections.LowerCaseOf | src/data/sections.rs:10-47 | a text equal character by character to the lower-cased input is its lower-case form |
| Sections.SectionsDistinct | src/data/sections.rs:10-47 | the ids, and the sections, are pairwise distinct |
| NewsSettings.ParseSource | src/services/news_settings_service/settings.rs:25-34 | any text other than "GNews" and "NewsData" reads as NewsAPI |
| NewsSettings.SourceRoundTrip | src/services/news_settings_service/settings.rs:50-59 | a stored provider reads back as the same provider |
| NewsSettings.ParseSourceExact | src/services/news_settings_service/settings.rs:25-34 | only "GNews" and "NewsData" read as a provider other than NewsAPI, and only the three names read back to themselves |
| NewsSettings.Settings.constructor | src/services/news_settings_service/settings.rs:11-14 | a store on which nothing has been written, over the schema's defaults |
| NewsSettings.Settings.SetCountry | src/services/news_settings_service/settings.rs:38-42 | writes the "country" key and no other, and the country reads back as the value |
| NewsSettings.Settings.SetLanguage | src/services/news_settings_service/settings.rs:44-48 | writes the "language" key and no other, and the language reads back as the value |
| NewsSettings.Settings.SetSource | src/services/news_settings_service/settings.rs:50-59 | writes the provider's name under "news-source" and no other key, and the provider reads back |
| NewsSettings.Settings.ResetCountry | src/services/news_settings_service/settings.rs:63-65 | the country goes back to its default |
| NewsSettings.Settings.ResetLanguage | src/services/news_settings_service/settings.rs:67-69 | the language goes back to its default |
| NewsSettings.Settings.ResetAll | src/services/news_settings_service/settings.rs:71-76 | country, provider and language go back to their defaults, and any other key keeps its value |
| Calendar.Midnight | src/utils/time_organizer.rs:30 | midnight is a whole number of days, at or before the time and less than a day before it, on the same day |
| Calendar.CivilRoundTrip | src/utils/time_organizer.rs:40-41 | every day number names one civil date and reads back from it |
| Calendar.CivilInjective | src/utils/time_organizer.rs:40-41 | distinct days have distinct dates |
| Calendar.WeekdayAdvances | src/utils/time_organizer.rs:48 | consecutive days have consecutive weekdays, and a week later is the same weekday |
| TimeOrganizer.ParseDatetime | src/utils/time_organizer.rs:15-23 | RFC 3339 when it parses, RFC 2822 when only that parses, and the current time otherwise or when there is no text |
| TimeOrganizer.TimeBucketKey | src/utils/time_organizer.rs:28-31 | the bucket key is the UTC midnight starting the day of the parsed time |
| TimeOrganizer.DaysDiff | src/utils/time_organizer.rs:40 | the day difference is 0 exactly on the same UTC civil date, and never negative for a bucket not in the future |
| TimeOrganizer.Categorize | src/utils/time_organizer.rs:36-67 | for each band of the UTC day difference the label it gets, both ways: 0 "Today", 1 "Yesterday", a negative difference or 2 to 6 the local weekday, 7 to 13 "Last week", 14 to 29 "Earlier this month", 30 to 364 outside January "Earlier this year", and 365 or more, or 30 or more in January, "Last year" |
| TimeOrganizer.Rank | src/utils/time_organizer.rs:69-84 | the thirteen listed labels get ranks 1 to 13 in their listed order, and every other text has none |
| TimeOrganizer.RankInverse | src/utils/time_organizer.rs:69-84 | a ranked label is the only label with its rank, between 1 and 13 |
| TimeOrganizer.RankOfLabel | src/utils/time_organizer.rs:69-84 | each of the 13 ranks belongs to a label |
| TimeOrganizer.Compare | src/utils/time_organizer.rs:69-91 | comparing returns exactly when both labels are ranked, and then compares their ranks; an unranked label panics |
| TimeOrganizer.CategorizeIsRanked | src/utils/time_organizer.rs:36-67 | every label the categoriser produces is ranked, so comparing its labels never panics |
| TimeOrganizer.CompareTotalOrder | src/utils/time_organizer.rs:69-91 | on ranked labels the comparison is a total order: equal only on the same label, antisymmetric and transitive |
| TimeOrganizer.TodayAndYesterday | src/utils/time_organizer.rs:40-46 | "Today" means the same UTC date as now, and "Yesterday" the UTC date before |
| TimeOrganizer.WeekdayIsLocal | src/utils/time_organizer.rs:36-57 | two to six days back, west of UTC, the label names the weekday before the bucket's UTC weekday, since it is read in local time |
| TimeOrganizer.JanuaryIsLastYear | src/utils/time_organizer.rs:62-65 | a January bucket between 30 and 364 days old is labelled "Last year", even in the current year |
| Grouping.GroupByKeys | src/services/news_service/fetch_service.rs:97-105 | a key has a bucket exactly when some item has that key |
| Grouping.GroupByBuckets | src/services/news_service/fetch_service.rs:97-105 | each bucket holds exactly the items with its key, in input order |
| Grouping.NoEmptyBucket | src/services/news_service/fetch_service.rs:97-105 | no bucket is empty |
| Grouping.SelectMembers | src/services/news_service/fetch_service.rs:97-105 | an item is in a bucket exactly when it has that bucket's key |
| Grouping.GroupByCount | src/services/news_service/fetch_service.rs:97-105 | grouping loses and duplicates nothing: the bucket sizes add up to the number of items |
| Grouping.GroupByKey | src/services/news_service/fetch_service.rs:97-105 | the push-into-entry loop builds the buckets of the group-by |
| FetchService.GroupArticlesFacts | src/services/news_service/fetch_service.rs:97-105 | each article is in exactly the bucket of its own label, in fetch order; no bucket is empty; each label is ranked; the sizes add up to the article count |
| FetchService.Report | src/services/news_service/fetch_service.rs:96-111 | success is reported as the grouped articles, and failure as the error text |
| FetchService.SendResult | src/services/news_service/fetch_service.rs:96-111 | the finished fetch sends the report of its outcome |
| FetchService.NewsFetchService.constructor | src/services/news_service/fetch_service.rs:26-39 | the service keeps the three keys and the shared settings, with empty request parameters |
| FetchService.NewsFetchService.GetClient | src/services/news_service/fetch_service.rs:45-51 | the client of the chosen provider, with that provider's key; a NewsAPI key whose byte 8 is not a character boundary panics |
| FetchService.NewsFetchService.SyncParameters | src/services/news_service/fetch_service.rs:53-61 | language and country are taken from the settings and every other parameter is kept |
| FetchService.NewsFetchService.Outcome | src/services/news_service/fetch_service.rs:63-141 | only General and Business fetches deliver a message |
| FetchService.NewsFetchService.ParamsAfter | src/services/news_service/fetch_service.rs:63-91 | after a fetch the page is the requested one; a General fetch also takes language and country from the settings; nothing else changes |
| FetchService.NewsFetchService.OutcomeLabelsRanked | src/services/news_service/fetch_service.rs:97-109 | the labels of a delivered grouping are all ranked, so sorting them never panics |
| FetchService.NewsFetchService.FetchNews | src/services/news_service/fetch_service.rs:63-141 | the client is chosen first (a bad NewsAPI key panics and changes nothing); General syncs the parameters and delivers the grouped test articles unless a date draw panics; Business delivers the provider's answer; other sections deliver nothing |
| Pagination.NewsPagination.constructor | src/utils/page_pignation.rs:13-19 | nothing cached, on page 1, with no results |
| Pagination.NewsPagination.Reset | src/utils/page_pignation.rs:21-25 | back to the state `new` builds, forgetting every cached page |
| CategoryPages.Deliver | src/pages/category_page.rs:50-57 | found news becomes a NewsReceived input and an error text an ApiError input; no message, no input |
| CategoryPages.SortBuckets | src/pages/category_page.rs:449-457 | sorting two or more labels panics exactly when one is unranked; otherwise it returns each label once, in increasing rank |
| CategoryPages.Labels | src/pages/category_page.rs:449-460 | the section labels, in display order |
| CategoryPages.ShownSections | src/pages/category_page.rs:449-460 | one section per label in the given order, each with its own bucket |
| CategoryPages.CategoryPage.constructor | src/pages/category_page.rs:348-362 | the page starts loading, shows nothing, has a fresh pagination and queues a FetchNews |
| CategoryPages.CategoryPage.OnShowSidebarToggleBtn | src/pages/category_page.rs:402-409 | only the toggle's visibility changes |
| CategoryPages.CategoryPage.OnFetchNews | src/pages/category_page.rs:410-415 | clears the error and fetches provider page 0; the fetch's message is queued and a bad key panics |
| CategoryPages.CategoryPage.OnRefresh | src/pages/category_page.rs:416-421 | starts the spinner, clears the error, resets the pagination and queues a FetchNews |
| CategoryPages.CategoryPage.OnNewsReceived | src/pages/category_page.rs:422-462 | an empty grouping marks the end and steps the page back; otherwise the page is cached and one section per label is shown in increasing rank, or the sort panics on an unranked label |
| CategoryPages.CategoryPage.OnGotoNews | src/pages/category_page.rs:463-494 | records the visit for the history worker and opens the article with its related list |
| CategoryPages.CategoryPage.OnNextPage | src/pages/category_page.rs:495-498 | queues the next page, and panics on the largest 32-bit page |
| CategoryPages.CategoryPage.OnPreviousPage | src/pages/category_page.rs:499-504 | queues the previous page, and does nothing on page 1 or below |
| CategoryPages.CategoryPage.OnLoadPage | src/pages/category_page.rs:505-518 | a cached page becomes current and is replayed without a fetch; any other page is fetched |
| CategoryPages.CategoryPage.OnApiError | src/pages/category_page.rs:519-523 | stops the spinner and keeps the message for display |
| CategorisedNews.FirstWithTitle | src/components/categorised_news.rs:145-148 | the first index whose title matches, or none when no article has that title |
| CategorisedNews.RelatedRemovesFirstSameTitle | src/components/categorised_news.rs:142-154 | the title is always found at or before the tile's position, so the related list lacks exactly that first same-title article |
| CategorisedNews.RelatedWithDistinctTitles | src/components/categorised_news.rs:142-154 | with distinct titles a tile's related list is every other article, in order |
| CategorisedNews.LaterDuplicateKeepsItself | src/components/categorised_news.rs:142-154 | a later duplicate title removes the first one, so its own related list still holds it |
| CategorisedNews.CategorisedNewsSection.constructor | src/components/categorised_news.rs:71-114 | the section keeps its label and articles and has no tiles yet |
| CategorisedNews.CategorisedNewsSection.FillTiles | src/components/categorised_news.rs:142-154 | one tile per article, in order, each with its related list |
| CategorisedNews.Columns | src/components/categorised_news.rs:86-93 | 2 columns up to 500, 3 up to 800, 4 up to 1100, and 5 beyond that and for a negative width |
| CategorisedNews.ColumnsMonotone | src/components/categorised_news.rs:86-93 | over non-negative widths a wider grid never has fewer columns |
| ImageCaches.UsageAfterInsert | src/types/cache.rs:59-70 | storing a texture replaces the old one's bytes in the total |
| ImageCaches.UsageAfterRemove | src/types/cache.rs:59-70 | dropping a URL takes its texture out of the total |
| ImageCaches.ImageCache.constructor | src/types/cache.rs:14-16 | the cache starts empty |
| ImageCaches.ImageCache.Get | src/types/cache.rs:19-21 | a texture exactly for a cached URL, and the cached one |
| ImageCaches.ImageCache.Contains | src/types/cache.rs:49-51 | true exactly when `get` finds a texture |
| ImageCaches.ImageCache.Len | src/types/cache.rs:39-41 | the number of cached URLs, 0 exactly when nothing is cached |
| ImageCaches.ImageCache.IsEmpty | src/types/cache.rs:44-46 | empty exactly when the length is 0 |
| ImageCaches.ImageCache.Insert | src/types/cache.rs:24-26 | the URL then reads back as the texture, and no other URL changes |
| ImageCaches.ImageCache.Remove | src/types/cache.rs:29-31 | returns what the URL held, which is then gone, and no other URL changes |
| ImageCaches.ImageCache.Clear | src/types/cache.rs:34-36 | the cache becomes empty |
| ImageCaches.ImageCache.Urls | src/types/cache.rs:54-56 | every cached URL exactly once |
| ImageCaches.ImageCache.MemoryUsage | src/types/cache.rs:59-70 | the sum over the cached textures of four bytes per pixel |
| ImageCaches.ImageCache.Prune | src/types/cache.rs:73-83 | everything goes when the textures take more than the limit in megabytes, and nothing changes otherwise |
| ImageCaches.ImageCache.GetOrLoad | src/types/cache.rs:86-107 | a hit returns the cached texture without loading; a miss loads once, then caches the texture or returns the error with the cache unchanged |
| ImageCaches.ImageCache.InsertFromBytes | src/types/cache.rs:109-117 | the texture is cached when the bytes decode, and nothing changes when they do not |
| Collections.AscendingFacts | src/pages/history_page.rs:222-223 | the ascending listing of a set holds each element once, in increasing order |
| Collections.InKeyOrder | src/pages/history_page.rs:222-248 | a map's values listed by increasing key, as a `BTreeMap` iterates |
| Collections.ValuesInKeyOrder | src/pages/history_page.rs:244-248 | the iteration loop yields the values in increasing key order |
| HistoryStore.NewestExists | src/services/history_service/history.rs:54-59 | a non-empty table has a row no other row is newer than |
| HistoryStore.LeftOutNotNewer | src/services/history_service/history.rs:54-59 | a row left out of the newest rows is no newer than any row in them |
| HistoryStore.StrictlyNewestComesFirst | src/services/history_service/history.rs:54-59 | a row strictly newer than all others, such as the visit just saved, heads the list |
| HistoryStore.HistoryService.constructor | src/services/history_service/history.rs:14-30 | the table as it was stored, each row under its own id |
| HistoryStore.HistoryService.SaveToHistory | src/services/history_service/history.rs:32-51 | an upsert on the id: afterwards that id holds exactly the article and no other row changes; a failed statement changes nothing |
| HistoryStore.HistoryService.GetAllHistory | src/services/history_service/history.rs:53-81 | the ten newest rows (all of them when fewer), newest first, once each, with no row left out newer than one taken; a failure returns the error |
| HistoryStore.HistoryService.DeleteEntry | src/services/history_service/history.rs:83-87 | removes that id only; a missing id is a successful no-op |
| HistoryStore.HistoryService.ClearAllHistory | src/services/history_service/history.rs:89-92 | leaves the table empty |
| HistoryWorkers.Broadcast | src/services/workers/history_worker.rs:42-48 | one notification per subscriber, in order, each carrying the same rows |
| HistoryWorkers.BroadcastAppend | src/services/workers/history_worker.rs:79-81 | a new subscriber receives the next broadcast after the earlier ones |
| HistoryWorkers.HistoryWorker.constructor | src/services/workers/history_worker.rs:33-38 | the worker on a shared history service, with no subscribers and nothing sent |
| HistoryWorkers.HistoryWorker.SendToAll | src/services/workers/history_worker.rs:42-48 | every subscriber gets the rows, in subscription order |
| HistoryWorkers.HistoryWorker.Notify | src/services/workers/history_worker.rs:42-48 | when the read succeeds, every subscriber gets the ten newest rows; a failed read sends nothing |
| HistoryWorkers.HistoryWorker.Fetch | src/services/workers/history_worker.rs:42-48 | sends the ten newest rows to every subscriber, or nothing when the read fails |
| HistoryWorkers.HistoryWorker.DeleterAll | src/services/workers/history_worker.rs:49-58 | a successful clear empties the table and sends every subscriber an empty list; a failed clear changes and sends nothing |
| HistoryWorkers.HistoryWorker.Save | src/services/workers/history_worker.rs:59-67 | the article is upserted unless the save fails, and subscribers are notified either way |
| HistoryWorkers.HistoryWorker.Delete | src/services/workers/history_worker.rs:68-77 | a successful delete removes the id and sends lists without it; a failed one sends nothing |
| HistoryWorkers.HistoryWorker.Subscribe | src/services/workers/history_worker.rs:79-81 | adds the subscriber at the end and sends nothing |
| HistoryPages.DayGroup | src/pages/history_page.rs:236-241 | within six days the key is the day count, labelled "Today", "Yesterday" or the weekday; any other day count, a future one included, is labelled with the long date and keyed by the negated timestamp |
| HistoryPages.RecentKeys | src/pages/history_page.rs:236-239 | a visit from today is "Today" with key 0, from yesterday "Yesterday" with key 1, and two to six days back its weekday, keyed by the day count |
| HistoryPages.OlderKeys | src/pages/history_page.rs:240-241 | an older visit is labelled with its long date, and two older visits share a group exactly when their timestamps agree |
| HistoryPages.UnrepresentableIsToday | src/pages/history_page.rs:229-231 | a visit time with no local date falls back to now, so it shows under "Today" |
| HistoryPages.OlderSortsFirst | src/pages/history_page.rs:236-241 | an older visit after 1970 gets a negative key, below every key of the last week |
| HistoryPages.Groups | src/pages/history_page.rs:222-243 | each group is non-empty and labelled by its first article |
| HistoryPages.GroupRows | src/pages/history_page.rs:228-243 | the row loop builds exactly those groups |
| HistoryPages.Shown | src/pages/history_page.rs:212-253 | the groups as shown: none is empty |
| HistoryPages.GroupsFacts | src/pages/history_page.rs:228-243 | every article's key has a group, each group holds exactly the articles with its key, in order |
| HistoryPages.ShownOrder | src/pages/history_page.rs:244-248 | the groups are shown once each, by increasing key |
| HistoryPages.ShownCovers | src/pages/history_page.rs:244-248 | every article is shown in some group |
| HistoryPages.ShownBuckets | src/pages/history_page.rs:228-248 | each shown group carries its first article's label and holds exactly the articles of its key, in order |
| HistoryPages.ShownAscending | src/pages/history_page.rs:244-248 | shown groups come in strictly increasing key order |
| HistoryPages.OlderGroupsShownFirst | src/pages/history_page.rs:236-248 | a group of visits older than a week is shown above every group from the last week |
| HistoryPages.HistoryPage.constructor | src/pages/history_page.rs:170-196 | no history shown and selection mode off; the page subscribes to the worker with its own sender and then asks it for the history, in that order |
| HistoryPages.HistoryPage.UpdateHistory | src/pages/history_page.rs:212-253 | history is available exactly when there are rows; an empty list shows nothing, and otherwise the groups are shown in key order |
| HistoryPages.HistoryPage.OnShowSidebarToggleBtn | src/pages/history_page.rs:254-256 | only the toggle's visibility changes |
| HistoryPages.HistoryPage.DeleteHistoryEntry | src/pages/history_page.rs:257-259 | asks the worker to delete that id, and changes nothing else |
| HistoryPages.HistoryPage.ClearHistory | src/pages/history_page.rs:260-263 | asks the worker to delete everything |
| HistoryPages.HistoryPage.SetSelectionMode | src/pages/history_page.rs:264-270 | only the selection mode changes |

## Left out

- Networking, JSON decoding and URL parsing are not modelled. Each exchange is an input: a transport failure, or a status with the decoded body or the decoding error. The `unwrap` on `join` is taken to succeed.
- Async tasks, the relm4 message loop and the GTK widgets are not modelled. A fetch is delivered as soon as it finishes, so races between stale and fresh responses are left out. The category page's and the history page's view code is left out, and so is the broadcast to the history buckets when selection mode is switched.
- `Arc`/`Mutex` sharing is one object reference. The history worker's replies go to a `sent` log rather than through relm4 channels.
- Printing to the terminal is not modelled.
- Panics from `&api_key[..8]`, `todo!()`, `unwrap()` and an empty `choose` are modelled; an `expect` on a failed GSettings write is not. The settings store always accepts a write.
- SQLite opening, table creation and decoding of rows are not modelled. Each statement's outcome is an input, and rows are stored already decoded.
- The clock, the local time zone, the RFC 3339/RFC 2822 parsers, chrono's local-date formatting, SHA-256 and the random shuffle are inputs. Daylight-saving changes of the UTC offset are not modelled.
- `Texture` is its pixel size. Image loading and decoding are inputs.
- `ImageCaches.ImageCache.Urls`: the order of the `HashMap` keys is left open.
- `ImageCaches.ImageCache.MemoryUsage`: not bounded by `usize`, since a sum of real texture sizes cannot reach it.
- `Text.ToLower`: only ASCII letters are lowered; Unicode case mapping is not modelled.
- `CategoryPages.CategoryPage.OnNextPage`: only the overflow panic of debug builds is modelled, not the wrap-around of release builds.
- `CategoryPages.CategoryPage.OnGotoNews`: pushing the article page with its related list is a field update. The page itself (src/pages/news_page.rs) is not part of this model.
- CopyError on the category page: the clipboard copy and the toast have no effect on the model's state, so the handler is left out.
- `HistoryPages.HistoryPage.UpdateHistory`: the key of an older group is the negated local timestamp. Chrono's range cannot overflow `i64` when negated, so the model uses plain integers.
- `Sections.KeysDisjoint`: the `Debug` quoting of a category's name is an input function.
- `NewsClients.FetchBusiness`: for NewsAPI the proof states the candidate list, not the concrete query string it filters to.
- `NewsClients.GNewsLanguages`: states 41 lower-case, non-empty codes, but not that they are pairwise distinct.
- The NewsData response's free-form insight fields are not modelled.
- The category section's `RequestNewspage` input, which passes a tile's article and related list on to the category page (where it becomes `GotoNews`), is not modelled as a message of its own; `CategoryPages.CategoryPage.OnGotoNews` receives that data directly.
- The `Dummy` input of the history page does nothing, and the history bucket's `Dummy` input only re-emits `Dummy` to the page; neither is modelled.
- src/pages/business_page.rs is not part of this model.
