/** One labelled bucket of articles on a category page (src/components/categorised_news.rs): a tile
    per article, each carrying the list of related articles the article page will show, and the
    number of columns the tile grid uses at a given width. */
module CategorisedNews {
  import opened Wrappers
  import opened NewsArticles

  /** `iter().position(|a| a.title() == title)`: the first index whose title is `title`. */
  function FirstWithTitle(xs: seq<Article>, title: string): (r: Option<nat>)
    ensures r.Some? ==>
      && r.value < |xs| && Title(xs[r.value]) == title
      && forall j :: 0 <= j < r.value ==> Title(xs[j]) != title
    ensures r.None? ==> forall j :: 0 <= j < |xs| ==> Title(xs[j]) != title
  {
    if xs == [] then None
    else if Title(xs[0]) == title then Some(0)
    else
      match FirstWithTitle(xs[1..], title)
      case None => None
      case Some(i) => Some(i + 1)
  }

  /** The related list of the tile for `xs[i]`: the articles with the first one of the same title
      removed (position 0 if none matched, which cannot happen since `xs[i]` itself matches). */
  function Related(xs: seq<Article>, i: nat): (related: seq<Article>)
    requires i < |xs|
  {
    var p := FirstWithTitle(xs, Title(xs[i])).GetOr(0);
    xs[..p] + xs[p + 1..]
  }

  /** The title is always found, at or before the tile's own position, so the related list is one
      shorter than the bucket and lacks exactly that first same-title article. */
  lemma RelatedRemovesFirstSameTitle(xs: seq<Article>, i: nat)
    requires i < |xs|
    ensures var p := FirstWithTitle(xs, Title(xs[i]));
      && p.Some? && p.value <= i
      && Related(xs, i) == xs[..p.value] + xs[p.value + 1..]
      && |Related(xs, i)| == |xs| - 1
  {
  }

  /** With pairwise distinct titles a tile's related list is every other article, in order. */
  lemma RelatedWithDistinctTitles(xs: seq<Article>, i: nat)
    requires i < |xs|
    requires forall a, b :: 0 <= a < b < |xs| ==> Title(xs[a]) != Title(xs[b])
    ensures Related(xs, i) == xs[..i] + xs[i + 1..]
  {
    var p := FirstWithTitle(xs, Title(xs[i]));
    assert p.value == i;
  }

  /** With a duplicate title, a later duplicate removes the first one, so its own related list still
      contains itself. */
  lemma {:induction false} LaterDuplicateKeepsItself(xs: seq<Article>, i: nat, j: nat)
    requires i < j < |xs| && Title(xs[i]) == Title(xs[j])
    ensures FirstWithTitle(xs, Title(xs[j])).value <= i
    ensures xs[j] in Related(xs, j) && |Related(xs, j)| == |xs| - 1
  {
    var p := FirstWithTitle(xs, Title(xs[j])).value;
    var r := Related(xs, j);
    assert r[j - 1] == xs[j];
  }

  /** `CategorisedNewsSection`: the bucket's label and articles, and the tiles built from them;
      a tile is an article with its related list. */
  class CategorisedNewsSection {
    const category: string
    const articles: seq<Article>
    var tiles: seq<(Article, seq<Article>)>

    /** `init_model`: no tiles until the first update. */
    constructor (category: string, articles: seq<Article>)
      ensures this.category == category && this.articles == articles && tiles == []
    {
      this.category := category;
      this.articles := articles;
      tiles := [];
    }

    /** The tile fill of `update_with_view`: the old tiles are dropped and one tile per article is
        pushed, in article order, each with its related list. */
    method FillTiles()
      modifies this
      ensures |tiles| == |articles|
      ensures forall i :: 0 <= i < |articles| ==> tiles[i] == (articles[i], Related(articles, i))
    {
      tiles := [];
      for i := 0 to |articles|
        invariant |tiles| == i
        invariant forall j :: 0 <= j < i ==> tiles[j] == (articles[j], Related(articles, j))
      {
        var article := articles[i];
        var related := articles;
        var position := FirstWithTitle(articles, Title(article)).GetOr(0);
        RelatedRemovesFirstSameTitle(articles, i);
        related := related[..position] + related[position + 1..];
        tiles := tiles + [(article, related)];
      }
    }
  }

  /** The grid's columns at a given width: 2 up to 500, 3 up to 800, 4 up to 1100, and 5 beyond that
      and for a negative width. */
  function Columns(width: int): (c: int)
    ensures 2 <= c <= 5
    ensures c == 2 <==> 0 <= width <= 500
    ensures c == 3 <==> 501 <= width <= 800
    ensures c == 4 <==> 801 <= width <= 1100
    ensures c == 5 <==> width < 0 || width > 1100
  {
    if 0 <= width <= 500 then 2
    else if 501 <= width <= 800 then 3
    else if 801 <= width <= 1100 then 4
    else 5
  }

  /** Over non-negative widths a wider grid never has fewer columns. */
  lemma ColumnsMonotone(a: int, b: int)
    requires 0 <= a <= b
    ensures Columns(a) <= Columns(b)
  {
  }
}
