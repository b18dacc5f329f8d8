/** The provider-agnostic query options (src/types/request_parameters.rs): nine optional fields, an
    empty constructor, one by-value setter per field that replaces that field, and one getter per field. */
module RequestParameters {
  import opened Wrappers
  import opened Ints

  datatype Params = Params(
    language: Option<string>,
    country: Option<string>,
    query: Option<string>,
    from: Option<string>,
    to: Option<string>,
    pageSize: Option<i32>,
    page: Option<i32>,
    category: Option<string>,
    sortBy: Option<string>)

  /** The nine field names, so that "this setter touches only this field" can be stated once. */
  datatype Field = Language | Country | Query | From | To | PageSize | Page | Category | SortBy

  /** A field's content, whatever its type. */
  datatype Value = Text(s: string) | Number(n: i32)

  function Get(p: Params, f: Field): Option<Value> {
    match f
    case Language => if p.language.Some? then Some(Text(p.language.value)) else None
    case Country => if p.country.Some? then Some(Text(p.country.value)) else None
    case Query => if p.query.Some? then Some(Text(p.query.value)) else None
    case From => if p.from.Some? then Some(Text(p.from.value)) else None
    case To => if p.to.Some? then Some(Text(p.to.value)) else None
    case PageSize => if p.pageSize.Some? then Some(Number(p.pageSize.value)) else None
    case Page => if p.page.Some? then Some(Number(p.page.value)) else None
    case Category => if p.category.Some? then Some(Text(p.category.value)) else None
    case SortBy => if p.sortBy.Some? then Some(Text(p.sortBy.value)) else None
  }

  /** `p` and `q` agree on every field except `f`. */
  predicate SameExcept(p: Params, q: Params, f: Field) {
    forall g: Field :: g != f ==> Get(p, g) == Get(q, g)
  }

  /** `RequestParameters::new`. */
  function New(): (p: Params)
    ensures forall f: Field :: Get(p, f) == None
  {
    Params(None, None, None, None, None, None, None, None, None)
  }

  // --- setters: each takes the parameters by value and returns them with one field replaced ---

  function SetLanguage(p: Params, v: string): (q: Params)
    ensures Get(q, Language) == Some(Text(v)) && SameExcept(p, q, Language)
  {
    p.(language := Some(v))
  }

  function SetCountry(p: Params, v: string): (q: Params)
    ensures Get(q, Country) == Some(Text(v)) && SameExcept(p, q, Country)
  {
    p.(country := Some(v))
  }

  function SetQuery(p: Params, v: string): (q: Params)
    ensures Get(q, Query) == Some(Text(v)) && SameExcept(p, q, Query)
  {
    p.(query := Some(v))
  }

  function SetFrom(p: Params, v: string): (q: Params)
    ensures Get(q, From) == Some(Text(v)) && SameExcept(p, q, From)
  {
    p.(from := Some(v))
  }

  function SetTo(p: Params, v: string): (q: Params)
    ensures Get(q, To) == Some(Text(v)) && SameExcept(p, q, To)
  {
    p.(to := Some(v))
  }

  function SetPageSize(p: Params, v: i32): (q: Params)
    ensures Get(q, PageSize) == Some(Number(v)) && SameExcept(p, q, PageSize)
  {
    p.(pageSize := Some(v))
  }

  function SetPage(p: Params, v: i32): (q: Params)
    ensures Get(q, Page) == Some(Number(v)) && SameExcept(p, q, Page)
  {
    p.(page := Some(v))
  }

  function SetCategory(p: Params, v: string): (q: Params)
    ensures Get(q, Category) == Some(Text(v)) && SameExcept(p, q, Category)
  {
    p.(category := Some(v))
  }

  function SetSortBy(p: Params, v: string): (q: Params)
    ensures Get(q, SortBy) == Some(Text(v)) && SameExcept(p, q, SortBy)
  {
    p.(sortBy := Some(v))
  }

  /** All nine setters through one door: `Set(p, f, v)` is the setter of field `f`. */
  function Set(p: Params, f: Field, v: Value): Params
    requires (f == PageSize || f == Page) <==> v.Number?
  {
    match f
    case Language => SetLanguage(p, v.s)
    case Country => SetCountry(p, v.s)
    case Query => SetQuery(p, v.s)
    case From => SetFrom(p, v.s)
    case To => SetTo(p, v.s)
    case PageSize => SetPageSize(p, v.n)
    case Page => SetPage(p, v.n)
    case Category => SetCategory(p, v.s)
    case SortBy => SetSortBy(p, v.s)
  }

  // --- getters: each returns a copy of its field ---

  function GetLanguage(p: Params): Option<string> { p.language }
  function GetCountry(p: Params): Option<string> { p.country }
  function GetQuery(p: Params): Option<string> { p.query }
  function GetFrom(p: Params): Option<string> { p.from }
  function GetTo(p: Params): Option<string> { p.to }
  function GetPageSize(p: Params): Option<i32> { p.pageSize }
  function GetPage(p: Params): Option<i32> { p.page }
  function GetCategory(p: Params): Option<string> { p.category }
  function GetSortBy(p: Params): Option<string> { p.sortBy }

  /** Two parameter sets are equal exactly when every field reads the same. */
  lemma {:induction false} Extensionality(p: Params, q: Params)
    requires forall f: Field :: Get(p, f) == Get(q, f)
    ensures p == q
  {
    assert Get(p, Language) == Get(q, Language);
    assert Get(p, Country) == Get(q, Country);
    assert Get(p, Query) == Get(q, Query);
    assert Get(p, From) == Get(q, From);
    assert Get(p, To) == Get(q, To);
    assert Get(p, PageSize) == Get(q, PageSize);
    assert Get(p, Page) == Get(q, Page);
    assert Get(p, Category) == Get(q, Category);
    assert Get(p, SortBy) == Get(q, SortBy);
  }

  /** Each typed getter returns what its setter stored. */
  lemma GetAfterSet(p: Params, s: string, n: i32)
    ensures GetLanguage(SetLanguage(p, s)) == Some(s)
    ensures GetCountry(SetCountry(p, s)) == Some(s)
    ensures GetQuery(SetQuery(p, s)) == Some(s)
    ensures GetFrom(SetFrom(p, s)) == Some(s)
    ensures GetTo(SetTo(p, s)) == Some(s)
    ensures GetPageSize(SetPageSize(p, n)) == Some(n)
    ensures GetPage(SetPage(p, n)) == Some(n)
    ensures GetCategory(SetCategory(p, s)) == Some(s)
    ensures GetSortBy(SetSortBy(p, s)) == Some(s)
  {
  }

  /** Calling a setter twice keeps the last value. */
  lemma {:induction false} LastSetWins(p: Params, f: Field, a: Value, b: Value)
    requires (f == PageSize || f == Page) <==> a.Number?
    requires (f == PageSize || f == Page) <==> b.Number?
    ensures Set(Set(p, f, a), f, b) == Set(p, f, b)
    ensures Get(Set(Set(p, f, a), f, b), f) == Some(b)
  {
    var l, r := Set(Set(p, f, a), f, b), Set(p, f, b);
    forall g: Field ensures Get(l, g) == Get(r, g) {
      if g != f {
        assert Get(l, g) == Get(Set(p, f, a), g) == Get(p, g);
      }
    }
    Extensionality(l, r);
  }

  /** Setters on different fields commute. */
  lemma {:induction false} SettersCommute(p: Params, f: Field, a: Value, g: Field, b: Value)
    requires (f == PageSize || f == Page) <==> a.Number?
    requires (g == PageSize || g == Page) <==> b.Number?
    requires f != g
    ensures Set(Set(p, f, a), g, b) == Set(Set(p, g, b), f, a)
  {
    var l, r := Set(Set(p, f, a), g, b), Set(Set(p, g, b), f, a);
    forall h: Field ensures Get(l, h) == Get(r, h) {
      if h != f && h != g {
        assert Get(l, h) == Get(p, h) == Get(r, h);
      }
    }
    Extensionality(l, r);
  }
}
