/** The product list page: the series buttons and the series filter. */
module ProductsPage {
  import opened Common
  import opened Catalog

  // ---------------------------------------------------------------------------
  // `[...new Set(xs)]`: the distinct values in order of first occurrence

  predicate NoDuplicates(s: seq<string>) {
    forall i, j :: 0 <= i < j < |s| ==> s[i] != s[j]
  }

  /** The position where `x` first occurs in `s`. */
  function FirstIndex(s: seq<string>, x: string): (k: nat)
    requires x in s
    ensures k < |s| && s[k] == x
    ensures forall j :: 0 <= j < k ==> s[j] != x
  {
    if s[0] == x then 0 else 1 + FirstIndex(s[1..], x)
  }

  lemma {:induction false} FirstIndexSnoc(s: seq<string>, y: string, x: string)
    requires x in s
    ensures x in s + [y] && FirstIndex(s + [y], x) == FirstIndex(s, x)
  {
    if s[0] != x {
      assert (s + [y])[1..] == s[1..] + [y];
      FirstIndexSnoc(s[1..], y, x);
    }
  }

  /** Built from the end: the last element is kept only if it is new. */
  function Dedup(s: seq<string>): (r: seq<string>)
    ensures NoDuplicates(r)
    ensures forall x :: x in r <==> x in s
    ensures forall i, j :: 0 <= i < j < |r| ==> FirstIndex(s, r[i]) < FirstIndex(s, r[j])
    decreases |s|
  {
    if s == [] then []
    else
      var init := s[..|s| - 1];
      var last := s[|s| - 1];
      var d := Dedup(init);
      assert s == init + [last];
      forall x | x in init
        ensures FirstIndex(s, x) == FirstIndex(init, x)
      {
        FirstIndexSnoc(init, last, x);
      }
      if last in d then d
      else
        assert FirstIndex(s, last) == |s| - 1;
        d + [last]
  }

  /** `products.map(product => product.series)`. */
  function SeriesOf(products: seq<Product>): (r: seq<string>)
    ensures |r| == |products|
    ensures forall i :: 0 <= i < |products| ==> r[i] == products[i].series
  {
    if products == [] then [] else [products[0].series] + SeriesOf(products[1..])
  }

  /** The series buttons. */
  function UniqueSeries(products: seq<Product>): (series: seq<string>)
    ensures NoDuplicates(series)
    ensures forall s :: s in series <==> exists p :: p in products && p.series == s
  {
    var all := SeriesOf(products);
    var r := Dedup(all);
    assert forall s :: s in all <==> exists p :: p in products && p.series == s by {
      forall s | s in all
        ensures exists p :: p in products && p.series == s
      {
        var i :| 0 <= i < |all| && all[i] == s;
        assert products[i] in products;
      }
      forall s | exists p :: p in products && p.series == s
        ensures s in all
      {
        var p :| p in products && p.series == s;
        var i :| 0 <= i < |products| && products[i] == p;
        assert all[i] == s;
      }
    }
    r
  }

  /** The buttons come in the order in which each series first appears
      among the products. */
  lemma UniqueSeriesOrder(products: seq<Product>, i: int, j: int)
    requires 0 <= i < j < |UniqueSeries(products)|
    ensures UniqueSeries(products)[i] in SeriesOf(products) && UniqueSeries(products)[j] in SeriesOf(products)
    ensures FirstIndex(SeriesOf(products), UniqueSeries(products)[i]) < FirstIndex(SeriesOf(products), UniqueSeries(products)[j])
  {
  }

  // ---------------------------------------------------------------------------
  // The filter

  /** `products.filter(product => product.series === selected)`. */
  function OfSeries(products: seq<Product>, series: string): (r: seq<Product>)
    ensures forall p :: p in r <==> p in products && p.series == series
    ensures forall p: Product :: p.series == series ==> multiset(r)[p] == multiset(products)[p]
    ensures |r| <= |products|
  {
    if products == [] then []
    else
      assert products == [products[0]] + products[1..];
      (if products[0].series == series then [products[0]] else []) + OfSeries(products[1..], series)
  }

  /** Filtering keeps the original order: it distributes over concatenation. */
  lemma {:induction false} OfSeriesAppend(a: seq<Product>, b: seq<Product>, series: string)
    ensures OfSeries(a + b, series) == OfSeries(a, series) + OfSeries(b, series)
  {
    if a == [] {
      assert a + b == b;
    } else {
      assert (a + b)[0] == a[0] && (a + b)[1..] == a[1..] + b;
      OfSeriesAppend(a[1..], b, series);
    }
  }

  /** The effect on the selected series: no selection (null or the empty
      string) shows every product. */
  function FilterBySeries(products: seq<Product>, selected: Option<string>): (shown: seq<Product>)
    ensures selected.None? || selected == Some("") ==> shown == products
    ensures selected.Some? && selected.value != "" ==> shown == OfSeries(products, selected.value)
  {
    if selected.Some? && selected.value != "" then OfSeries(products, selected.value) else products
  }

  /** Every series button shows at least one product: the first one of that
      series. */
  lemma SeriesButtonShowsSomething(products: seq<Product>, series: string)
    requires series in UniqueSeries(products) && series != ""
    ensures |FilterBySeries(products, Some(series))| > 0
  {
    var p :| p in products && p.series == series;
    assert p in FilterBySeries(products, Some(series));
  }
}
