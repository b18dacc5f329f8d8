/** News sections (src/types/news_category.rs), the sidebar's section table (src/data/sections.rs)
    and the keys under which the main window caches its pages: a section's key is its variant name,
    and a navigation page's key is its `Debug` rendering (src/components/sidebar.rs). */
module Sections {
  import opened Wrappers
  import opened Text

  datatype NewsSection = General | Business | Health | Entertainment | Technology | Science | Sports

  /** `to_key`: the variant's name. */
  function ToKey(s: NewsSection): string {
    match s
    case General => "General"
    case Business => "Business"
    case Health => "Health"
    case Entertainment => "Entertainment"
    case Technology => "Technology"
    case Science => "Science"
    case Sports => "Sports"
  }

  /** The section a key names, if any. */
  function SectionOfKey(k: string): Option<NewsSection> {
    if k == "General" then Some(General)
    else if k == "Business" then Some(Business)
    else if k == "Health" then Some(Health)
    else if k == "Entertainment" then Some(Entertainment)
    else if k == "Technology" then Some(Technology)
    else if k == "Science" then Some(Science)
    else if k == "Sports" then Some(Sports)
    else None
  }

  /** A key names its section back, so distinct sections have distinct keys and a copy of a section
      (`Clone`) keys the same page as the original. */
  lemma ToKeyRoundTrip(s: NewsSection)
    ensures SectionOfKey(ToKey(s)) == Some(s)
  {
  }

  lemma ToKeyInjective(a: NewsSection, b: NewsSection)
    ensures ToKey(a) == ToKey(b) <==> a == b
  {
    ToKeyRoundTrip(a);
    ToKeyRoundTrip(b);
  }

  /** `NavigationPage`; a category page carries its name. */
  datatype NavigationPage = Saved | History | Settings | CustomEndpoint | Category(name: string)

  /** `NavigationPage::to_key`: the `Debug` text. A category's name appears quoted; `debugStr` is
      Rust's `Debug` rendering of a string, which is not modelled beyond being a parameter. */
  function NavigationKey(p: NavigationPage, debugStr: string -> string): string {
    match p
    case Saved => "Saved"
    case History => "History"
    case Settings => "Settings"
    case CustomEndpoint => "CustomEndpoint"
    case Category(name) => "Category(" + debugStr(name) + ")"
  }

  predicate HasOpenParen(s: string) {
    exists i :: 0 <= i < |s| && s[i] == '('
  }

  /** No section key equals any navigation key, so sections and navigation pages can share one page
      cache without overwriting each other. */
  lemma {:induction false} KeysDisjoint(s: NewsSection, p: NavigationPage, debugStr: string -> string)
    ensures ToKey(s) != NavigationKey(p, debugStr)
  {
    ToKeyRoundTrip(s);
    if p.Category? {
      var k := NavigationKey(p, debugStr);
      assert k[8] == '(';
      assert HasOpenParen(k);
      assert !HasOpenParen(ToKey(s));
    }
  }

  /** `SectionData`. */
  datatype SectionData = SectionData(id: string, name: string, icon: string, enumName: NewsSection)

  const SECTIONS: seq<SectionData> := [
    SectionData("business", "Business", "x-office-presentation-symbolic", Business),
    SectionData("health", "Health", "face-sick-symbolic", Health),
    SectionData("entertainment", "Entertainment", "applications-multimedia-symbolic", Entertainment),
    SectionData("technology", "Technology", "computer-symbolic", Technology),
    SectionData("science", "Science", "applications-science-symbolic", Science),
    SectionData("sports", "Sports", "emoji-activities-symbolic", Sports)]

  /** The table lists six sections, in this order. */
  lemma SectionOrder()
    ensures |SECTIONS| == 6
    ensures SECTIONS[0].enumName == Business && SECTIONS[1].enumName == Health
      && SECTIONS[2].enumName == Entertainment && SECTIONS[3].enumName == Technology
      && SECTIONS[4].enumName == Science && SECTIONS[5].enumName == Sports
  {
  }

  /** Each entry's name is its section's key and its id is that name in lower case; General, the
      start page, has no entry. */
  lemma SectionEntriesAgree(i: nat)
    requires i < |SECTIONS|
    ensures SECTIONS[i].name == ToKey(SECTIONS[i].enumName)
    ensures SECTIONS[i].id == ToLower(SECTIONS[i].name)
    ensures SECTIONS[i].enumName != General
  {
    var e := SECTIONS[i];
    LowerCaseOf(e.id, e.name);
  }

  lemma LowerCaseOf(lower: string, s: string)
    requires |lower| == |s| && forall k :: 0 <= k < |s| ==> lower[k] == LowerChar(s[k])
    ensures lower == ToLower(s)
  {
  }

  /** Ids, and sections, are pairwise distinct, so a lookup by id or by section finds at most one
      entry. */
  lemma SectionsDistinct()
    ensures forall i, j :: 0 <= i < j < |SECTIONS| ==> SECTIONS[i].id != SECTIONS[j].id
    ensures forall i, j :: 0 <= i < j < |SECTIONS| ==> SECTIONS[i].enumName != SECTIONS[j].enumName
  {
  }
}
