/** The user's news settings (src/services/news_settings_service/settings.rs), kept in a GSettings
    store: the country, the language and the news provider. A key that was never written, or was
    reset, reads as the schema's default; the defaults are a parameter of the store. */
module NewsSettings {

  /** `NewsSource`: which provider to use. */
  datatype NewsSource = NewsApiSource | GNewsSource | NewsDataSource

  const COUNTRY_KEY := "country"
  const LANGUAGE_KEY := "language"
  const SOURCE_KEY := "news-source"

  /** The text `set_news_source` stores for each provider. */
  function SourceText(s: NewsSource): string {
    match s
    case NewsApiSource => "NewsAPI"
    case GNewsSource => "GNews"
    case NewsDataSource => "NewsData"
  }

  /** How `news_source` reads the stored text: the three provider names, and NewsAPI for anything
      else. */
  function ParseSource(t: string): (s: NewsSource)
    ensures t != "GNews" && t != "NewsData" ==> s == NewsApiSource
  {
    if t == "NewsAPI" then NewsApiSource
    else if t == "GNews" then GNewsSource
    else if t == "NewsData" then NewsDataSource
    else NewsApiSource
  }

  /** What is stored reads back as the same provider. */
  lemma SourceRoundTrip(s: NewsSource)
    ensures ParseSource(SourceText(s)) == s
  {
  }

  /** The stored texts are exactly the texts that parse to something other than the fallback. */
  lemma ParseSourceExact(t: string)
    ensures ParseSource(t) != NewsApiSource <==> t == SourceText(GNewsSource) || t == SourceText(NewsDataSource)
    ensures SourceText(ParseSource(t)) == t <==> t == "NewsAPI" || t == "GNews" || t == "NewsData"
  {
  }

  /** The settings store: the keys written since their last reset, over the schema's defaults. */
  class Settings {
    const defaults: string -> string
    var written: map<string, string>

    /** `NewsServiceSettings::new`: a store on which nothing has been written. */
    constructor (defaults: string -> string)
      ensures this.defaults == defaults && written == map[]
    {
      this.defaults := defaults;
      written := map[];
    }

    /** `settings.string(key)`. */
    function Read(key: string): string
      reads this
    {
      if key in written then written[key] else defaults(key)
    }

    /** `country`. */
    function Country(): string
      reads this
    {
      Read(COUNTRY_KEY)
    }

    /** `language`. */
    function Language(): string
      reads this
    {
      Read(LANGUAGE_KEY)
    }

    /** `news_source`. */
    function Source(): NewsSource
      reads this
    {
      ParseSource(Read(SOURCE_KEY))
    }

    /** `set_country`: writes the "country" key and no other. */
    method SetCountry(value: string)
      modifies this
      ensures written == old(written)[COUNTRY_KEY := value]
      ensures Country() == value
      ensures forall k :: k != COUNTRY_KEY ==> Read(k) == old(Read(k))
    {
      written := written[COUNTRY_KEY := value];
    }

    /** `set_langauge`: writes the "language" key and no other. */
    method SetLanguage(value: string)
      modifies this
      ensures written == old(written)[LANGUAGE_KEY := value]
      ensures Language() == value
      ensures forall k :: k != LANGUAGE_KEY ==> Read(k) == old(Read(k))
    {
      written := written[LANGUAGE_KEY := value];
    }

    /** `set_news_source`: writes the provider's name under "news-source", which reads back as the
        same provider. */
    method SetSource(source: NewsSource)
      modifies this
      ensures written == old(written)[SOURCE_KEY := SourceText(source)]
      ensures Source() == source
      ensures forall k :: k != SOURCE_KEY ==> Read(k) == old(Read(k))
    {
      written := written[SOURCE_KEY := SourceText(source)];
      SourceRoundTrip(source);
    }

    /** `reset_country`. */
    method ResetCountry()
      modifies this
      ensures written == old(written) - {COUNTRY_KEY}
      ensures Country() == defaults(COUNTRY_KEY)
    {
      written := written - {COUNTRY_KEY};
    }

    /** `reset_language`. */
    method ResetLanguage()
      modifies this
      ensures written == old(written) - {LANGUAGE_KEY}
      ensures Language() == defaults(LANGUAGE_KEY)
    {
      written := written - {LANGUAGE_KEY};
    }

    /** `reset_all`: the country, the provider and the language go back to their defaults; any other
        key keeps its value. */
    method ResetAll()
      modifies this
      ensures written == old(written) - {COUNTRY_KEY, SOURCE_KEY, LANGUAGE_KEY}
      ensures Country() == defaults(COUNTRY_KEY) && Language() == defaults(LANGUAGE_KEY)
      ensures Source() == ParseSource(defaults(SOURCE_KEY))
      ensures forall k :: k != COUNTRY_KEY && k != SOURCE_KEY && k != LANGUAGE_KEY ==> Read(k) == old(Read(k))
    {
      written := written - {COUNTRY_KEY};
      written := written - {SOURCE_KEY};
      written := written - {LANGUAGE_KEY};
    }
  }
}
