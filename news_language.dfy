/** A language selection (src/types/news_language.rs): either a code taken from a client's supported
    list, or the default "all languages". Lookups search the list from the front and take the first
    entry whose code matches. */
module NewsLanguages {
  import opened Wrappers

  datatype NewsLanguage = Code(code: string) | Default

  type LanguageList = seq<(string, string)>

  /** `as_str`. */
  function AsStr(l: NewsLanguage): (s: string)
    ensures l.Default? ==> s == ""
    ensures l.Code? ==> s == l.code
  {
    match l
    case Code(c) => c
    case Default => ""
  }

  /** `iter().find(|(code, _)| code == s)`: the position of the first entry with code `s`. */
  function FindCode(list: LanguageList, s: string): (r: Option<nat>)
    ensures r.Some? ==>
      && r.value < |list| && list[r.value].0 == s
      && forall j :: 0 <= j < r.value ==> list[j].0 != s
    ensures r.None? ==> forall j :: 0 <= j < |list| ==> list[j].0 != s
  {
    if list == [] then None
    else if list[0].0 == s then Some(0)
    else
      match FindCode(list[1..], s)
      case None => None
      case Some(i) => Some(i + 1)
  }

  predicate Listed(list: LanguageList, s: string) {
    exists j :: 0 <= j < |list| && list[j].0 == s
  }

  /** `from_str`: the empty string is the default, even when the list has an entry with the empty
      code; a listed code is selected; anything else falls back to the default. */
  function FromStr(s: string, list: LanguageList): (l: NewsLanguage)
    ensures s == [] ==> l == Default
    ensures s != [] ==> (l == Code(s) <==> Listed(list, s))
    ensures s != [] ==> (l == Default <==> !Listed(list, s))
  {
    if s == [] then Default
    else if FindCode(list, s).Some? then Code(s)
    else Default
  }

  /** `display_name`: "All Languages" for the default; for a code, the name of the first entry with
      that code, or "Unknown" when the list does not have it. */
  function DisplayName(l: NewsLanguage, list: LanguageList): (name: string)
    ensures l.Default? ==> name == "All Languages"
    ensures l.Code? && !Listed(list, l.code) ==> name == "Unknown"
  {
    match l
    case Default => "All Languages"
    case Code(c) =>
      match FindCode(list, c)
      case Some(i) => list[i].1
      case None => "Unknown"
  }

  /** A listed code is shown with the name of its first entry. */
  lemma DisplayNameOfListed(list: LanguageList, i: nat)
    requires i < |list|
    requires forall j :: 0 <= j < i ==> list[j].0 != list[i].0
    ensures DisplayName(Code(list[i].0), list) == list[i].1
  {
    var r := FindCode(list, list[i].0);
    assert r.Some?;
  }

  /** Reading back a stored selection: a non-empty listed code survives `as_str` then `from_str`, and
      so does the default; `as_str` of what `from_str` returns is the input when that is listed and
      the empty string otherwise. */
  lemma {:induction false} LanguageRoundTrip(l: NewsLanguage, s: string, list: LanguageList)
    ensures (l.Default? || (l.code != [] && Listed(list, l.code))) ==> FromStr(AsStr(l), list) == l
    ensures AsStr(FromStr(s, list)) == (if Listed(list, s) then s else "")
  {
  }

  /** What `from_str` returns always reads back to itself. */
  lemma FromStrStable(s: string, list: LanguageList)
    ensures FromStr(AsStr(FromStr(s, list)), list) == FromStr(s, list)
  {
  }
}
