/**
 * The catalogue page: the shuffled product list narrowed by category, by
 * the sidebar's price range and minimum rating, then sorted by the chosen
 * order on a copy.
 */
module Catalogue {
  import opened JsText
  import opened Seqs
  import opened Sorting
  import opened Sidebar
  import Shuffle

  /** A catalogue entry, with the fields the page reads. */
  datatype Product = Product(id: int, title: string, price: real, category: string, rating: real)

  /** `['All', ...new Set(productsData.map(p => p.category))]`. */
  function Categories(products: seq<Product>): seq<string> {
    ["All"] + Distinct(seq(|products|, i requires 0 <= i < |products| => products[i].category))
  }

  /**
   * The category list starts with 'All', then names every category of the
   * catalogue exactly once, in order of first appearance.
   */
  lemma CategoriesListEachOnce(products: seq<Product>)
    ensures Categories(products)[0] == "All"
    ensures forall c :: c in Categories(products)[1..] <==> exists p :: p in products && p.category == c
    ensures forall i, j :: 1 <= i < j < |Categories(products)| ==> Categories(products)[i] != Categories(products)[j]
    ensures var names := seq(|products|, i requires 0 <= i < |products| => products[i].category);
      forall i, j :: 1 <= i < j < |Categories(products)| ==>
        IndexOf(names, Categories(products)[i]) < IndexOf(names, Categories(products)[j])
  {
    var names := seq(|products|, i requires 0 <= i < |products| => products[i].category);
    var d := Distinct(names);
    assert Categories(products)[1..] == d;
    DistinctFirstAppearanceOrder(names);
    forall c ensures c in d <==> exists p :: p in products && p.category == c {
      if c in names {
        var k :| 0 <= k < |names| && names[k] == c;
        assert products[k] in products;
      }
      if exists p :: p in products && p.category == c {
        var p :| p in products && p.category == c;
        var k :| 0 <= k < |products| && products[k] == p;
        assert names[k] == c;
      }
    }
  }

  /** The category step: everything for 'All', else the products of that category. */
  function ByCategory(products: seq<Product>, selected: string): seq<Product> {
    if selected == "All" then products else Filter(products, InCategory(selected))
  }

  function InCategory(selected: string): Product -> bool {
    (p: Product) => p.category == selected
  }

  /** `p.price >= min && p.price <= max`: both ends are included; `Infinity` bounds nothing. */
  predicate InRange(price: real, range: PriceRange) {
    range.min as real <= price && (range.max.None? || price <= range.max.value as real)
  }

  function InPriceRange(range: PriceRange): Product -> bool {
    (p: Product) => InRange(p.price, range)
  }

  /** The price step: skipped without a range. */
  function ByPrice(products: seq<Product>, range: Option<PriceRange>): seq<Product> {
    if range.Some? then Filter(products, InPriceRange(range.value)) else products
  }

  function AtLeast(minRating: int): Product -> bool {
    (p: Product) => p.rating >= minRating as real
  }

  /** The rating step: skipped when `minRating` is missing or 0 (both falsy). */
  function ByRating(products: seq<Product>, minRating: Option<int>): seq<Product> {
    if minRating.Some? && minRating.value != 0 then Filter(products, AtLeast(minRating.value)) else products
  }

  /** The brand step is a placeholder: products carry no brand, and the list passes through. */
  function ByBrand(products: seq<Product>, brands: seq<string>): seq<Product> {
    products
  }

  /** The filter chain: category, price range, brand, minimum rating. */
  function Filtered(shuffled: seq<Product>, selected: string, f: Filters): seq<Product> {
    ByRating(ByBrand(ByPrice(ByCategory(shuffled, selected), f.priceRange), f.brands), f.minRating)
  }

  /** The whole chain as one test: the product passes every chosen filter. */
  function Shown(selected: string, f: Filters): Product -> bool {
    (p: Product) =>
      (selected == "All" || p.category == selected)
      && (f.priceRange.None? || InRange(p.price, f.priceRange.value))
      && (f.minRating.None? || f.minRating.value == 0 || p.rating >= f.minRating.value as real)
  }

  function CategoryTest(selected: string): Product -> bool {
    (p: Product) => selected == "All" || p.category == selected
  }

  function CategoryAndPrice(selected: string, range: Option<PriceRange>): Product -> bool {
    (p: Product) => (selected == "All" || p.category == selected) && (range.None? || InRange(p.price, range.value))
  }

  /** The filter chain keeps exactly what one filter by `Shown` keeps. */
  lemma FilteredIsOneFilter(shuffled: seq<Product>, selected: string, f: Filters)
    ensures Filtered(shuffled, selected, f) == Filter(shuffled, Shown(selected, f))
  {
    var cat := CategoryTest(selected);
    var a := ByCategory(shuffled, selected);
    if selected == "All" {
      FilterTrue(shuffled, cat);
    } else {
      assert forall x :: cat(x) == InCategory(selected)(x);
      FilterSameTest(shuffled, InCategory(selected), cat);
    }
    assert a == Filter(shuffled, cat);
    var cp := CategoryAndPrice(selected, f.priceRange);
    var b := ByPrice(a, f.priceRange);
    if f.priceRange.Some? {
      FilterFilter(shuffled, cat, InPriceRange(f.priceRange.value), cp);
    } else {
      assert forall x :: cp(x) == cat(x);
      FilterSameTest(shuffled, cat, cp);
    }
    assert b == Filter(shuffled, cp);
    if f.minRating.Some? && f.minRating.value != 0 {
      FilterFilter(shuffled, cp, AtLeast(f.minRating.value), Shown(selected, f));
    } else {
      assert forall x :: Shown(selected, f)(x) == cp(x);
      FilterSameTest(shuffled, cp, Shown(selected, f));
    }
  }

  /**
   * Every step keeps a subsequence of what it is given, so the page only
   * ever shows shuffled products, in shuffled order; a product passing all
   * chosen filters is shown as often as it occurs, any other not at all.
   */
  lemma FilteredExactly(shuffled: seq<Product>, selected: string, f: Filters, p: Product)
    ensures IsSubseq(Filtered(shuffled, selected, f), shuffled)
    ensures multiset(Filtered(shuffled, selected, f))[p] ==
      if (selected == "All" || p.category == selected)
         && (f.priceRange.None? || InRange(p.price, f.priceRange.value))
         && (f.minRating.None? || f.minRating.value == 0 || p.rating >= f.minRating.value as real)
      then multiset(shuffled)[p] else 0
  {
    FilteredIsOneFilter(shuffled, selected, f);
  }

  /** Brands never change the result. */
  lemma BrandsIgnored(shuffled: seq<Product>, selected: string, f: Filters, brands: seq<string>)
    ensures Filtered(shuffled, selected, f.(brands := brands)) == Filtered(shuffled, selected, f)
  {
  }

  /**
   * The ends are shared: a product at $25, $50, $100 or $200 matches both
   * neighbouring ranges of the sidebar.
   */
  lemma BoundaryPriceInTwoRanges(i: nat)
    requires 0 < i < |PriceRanges|
    ensures InRange(PriceRanges[i].min as real, PriceRanges[i - 1])
    ensures InRange(PriceRanges[i].min as real, PriceRanges[i])
  {
  }

  /** The key whose difference is each sort's comparator; `None` for 'default' (and anything else): no sort. */
  function SortKey(sortBy: string): Option<Product -> real> {
    if sortBy == "price-low" then Some((p: Product) => p.price)
    else if sortBy == "price-high" then Some((p: Product) => -p.price)
    else if sortBy == "rating" then Some((p: Product) => -p.rating)
    else None
  }

  /** What being sorted by each key means for prices and ratings. */
  lemma SortKeyMeaning(s: seq<Product>, sortBy: string)
    requires SortKey(sortBy).Some? && SortedBy(s, SortKey(sortBy).value)
    ensures sortBy == "price-low" ==> forall i, j :: 0 <= i < j < |s| ==> s[i].price <= s[j].price
    ensures sortBy == "price-high" ==> forall i, j :: 0 <= i < j < |s| ==> s[i].price >= s[j].price
    ensures sortBy == "rating" ==> forall i, j :: 0 <= i < j < |s| ==> s[i].rating >= s[j].rating
  {
  }

  /**
   * `[...filteredProducts].sort(...)`: the chosen sort on a copy. The result
   * holds the same products, ordered by the key; 'default' keeps the
   * filtered order, as does a list already in order.
   */
  method SortedView(filtered: seq<Product>, sortBy: string) returns (view: seq<Product>)
    ensures multiset(view) == multiset(filtered) && |view| == |filtered|
    ensures SortKey(sortBy).None? ==> view == filtered
    ensures SortKey(sortBy).Some? ==> SortedBy(view, SortKey(sortBy).value)
    ensures SortKey(sortBy).Some? && SortedBy(filtered, SortKey(sortBy).value) ==> view == filtered
  {
    if SortKey(sortBy).None? {
      return filtered;
    }
    var copy := new Product[|filtered|](i requires 0 <= i < |filtered| => filtered[i]);
    assert copy[..] == filtered;
    SortInPlace(copy, SortKey(sortBy).value);
    view := copy[..];
    assert |multiset(view)| == |multiset(filtered)|;
  }

  /** The page's state: the category and sort menus, the shuffled list and the sidebar's filters. */
  class ProductsPage {
    var selectedCategory: string
    var sortBy: string
    var shuffledProducts: seq<Product>
    var filters: Filters

    constructor ()
      ensures selectedCategory == "All" && sortBy == "default"
      ensures shuffledProducts == [] && filters == NoFilters
    {
      selectedCategory := "All";
      sortBy := "default";
      shuffledProducts := [];
      filters := NoFilters;
    }

    /** The mount effect: the catalogue, shuffled once. */
    method Mount(catalogue: seq<Product>, random: nat -> real)
      requires forall k :: 0.0 <= random(k) < 1.0
      modifies this`shuffledProducts
      ensures shuffledProducts == Shuffle.Shuffled(catalogue, random)
      ensures multiset(shuffledProducts) == multiset(catalogue)
    {
      shuffledProducts := Shuffle.ShuffleArray(catalogue, random);
    }

    /** The sidebar's `onFilterChange`, and the empty-result "Clear Filters" button with `NoFilters`. */
    method SetFilters(f: Filters)
      modifies this`filters
      ensures filters == f
    {
      filters := f;
    }

    /** What the page renders: the filtered products in the chosen order. */
    method Displayed() returns (view: seq<Product>)
      ensures multiset(view) == multiset(Filtered(shuffledProducts, selectedCategory, filters))
      ensures SortKey(sortBy).None? ==> view == Filtered(shuffledProducts, selectedCategory, filters)
      ensures SortKey(sortBy).Some? ==> SortedBy(view, SortKey(sortBy).value)
    {
      view := SortedView(Filtered(shuffledProducts, selectedCategory, filters), sortBy);
    }
  }
}
