/**
 * The catalogue sidebar: three groups of check boxes (price range, brand,
 * minimum rating) over a filters record, and a "Clear All" button. Every
 * handler builds a new filters record and hands it to the page.
 */
module Sidebar {
  import opened JsText
  import opened Seqs

  /** A price range; `max` is `None` for the unbounded `$200 & Above` (`Infinity`). */
  datatype PriceRange = PriceRange(text: string, min: int, max: Option<int>)

  /**
   * The filters record. `brands` is always present in the records the page
   * creates; a missing `priceRange` or `minRating` (null or undefined) is
   * `None`.
   */
  datatype Filters = Filters(brands: seq<string>, priceRange: Option<PriceRange>, minRating: Option<int>)

  const PriceRanges := [
    PriceRange("Under $25", 0, Some(25)),
    PriceRange("$25 to $50", 25, Some(50)),
    PriceRange("$50 to $100", 50, Some(100)),
    PriceRange("$100 to $200", 100, Some(200)),
    PriceRange("$200 & Above", 200, None)]

  const Brands := ["Apple", "Samsung", "Nike", "Adidas", "Sony", "LG", "Generic"]

  const Ratings := [4, 3, 2, 1]

  /** The filters the catalogue starts with (and its own "Clear Filters" button restores). */
  const NoFilters := Filters([], None, None)

  /** Two ranges are the same choice when their bounds agree; the label is not compared. */
  predicate SameBounds(a: PriceRange, b: PriceRange) {
    a.min == b.min && a.max == b.max
  }

  /** The box of `range` is checked. */
  predicate PriceChecked(f: Filters, range: PriceRange) {
    f.priceRange.Some? && SameBounds(f.priceRange.value, range)
  }

  predicate BrandChecked(f: Filters, brand: string) {
    brand in f.brands
  }

  predicate RatingChecked(f: Filters, rating: int) {
    f.minRating == Some(rating)
  }

  /** `handlePriceChange`: clicking the chosen range clears the choice, any other range replaces it. */
  function PriceToggled(f: Filters, range: PriceRange): Filters {
    f.(priceRange := if PriceChecked(f, range) then None else Some(range))
  }

  /** `currentBrands.filter(b => b !== brand)`. */
  function WithoutBrand(brands: seq<string>, brand: string): seq<string> {
    Filter(brands, Other(brand))
  }

  /** The test `b => b !== brand`. */
  function Other(brand: string): string -> bool {
    b => b != brand
  }

  /** `handleBrandChange`: a chosen brand is removed (every copy of it), another is appended. */
  function BrandToggled(f: Filters, brand: string): Filters {
    f.(brands := if brand in f.brands then WithoutBrand(f.brands, brand) else f.brands + [brand])
  }

  /** The rating boxes' change handler: clicking the chosen rating clears it, any other replaces it. */
  function RatingToggled(f: Filters, rating: int): Filters {
    f.(minRating := if f.minRating == Some(rating) then None else Some(rating))
  }

  /** `clearFilters`: `{brands: [], priceRange: null}`, with no `minRating` at all. */
  function ClearFilters(): Filters {
    Filters([], None, None)
  }

  /** The "Clear All" button shows when a brand or a price range is chosen. */
  predicate ShowsClearAll(f: Filters) {
    |f.brands| > 0 || f.priceRange.Some?
  }

  /**
   * Clicking a price box flips that box, leaves at most that box checked,
   * and changes neither the brands nor the rating.
   */
  lemma PriceToggleFlips(f: Filters, range: PriceRange, other: PriceRange)
    ensures PriceChecked(PriceToggled(f, range), range) <==> !PriceChecked(f, range)
    ensures PriceChecked(PriceToggled(f, range), other) ==> SameBounds(other, range)
    ensures PriceToggled(f, range).brands == f.brands && PriceToggled(f, range).minRating == f.minRating
  {
  }

  /** From no price range, clicking the same range twice leaves none chosen. */
  lemma PriceToggleTwice(f: Filters, range: PriceRange)
    requires f.priceRange.None?
    ensures PriceToggled(PriceToggled(f, range), range) == f
  {
  }

  /** Of the sidebar's five ranges, at most one box is ever checked. */
  lemma AtMostOneRangeChecked(f: Filters, i: nat, j: nat)
    requires i < j < |PriceRanges|
    ensures !(PriceChecked(f, PriceRanges[i]) && PriceChecked(f, PriceRanges[j]))
  {
  }

  /**
   * Clicking a brand box flips that box and no other, and changes neither
   * the price range nor the rating; an absent brand goes to the end.
   */
  lemma BrandToggleFlips(f: Filters, brand: string, other: string)
    ensures BrandChecked(BrandToggled(f, brand), brand) <==> !BrandChecked(f, brand)
    ensures other != brand ==> (BrandChecked(BrandToggled(f, brand), other) <==> BrandChecked(f, other))
    ensures brand !in f.brands ==> BrandToggled(f, brand).brands == f.brands + [brand]
    ensures BrandToggled(f, brand).priceRange == f.priceRange && BrandToggled(f, brand).minRating == f.minRating
  {
  }

  /** Clicking an absent brand twice restores the brand list exactly. */
  lemma BrandToggleTwice(f: Filters, brand: string)
    requires brand !in f.brands
    ensures BrandToggled(BrandToggled(f, brand), brand) == f
  {
    var keep := Other(brand);
    assert BrandToggled(f, brand).brands == f.brands + [brand];
    FilterAppend(f.brands, [brand], keep);
    FilterAll(f.brands, keep);
    FilterOfOne(brand, keep);
    assert Filter(f.brands + [brand], keep) == f.brands;
  }

  /** Clicking a rating box flips it, leaves at most that rating chosen, and changes nothing else. */
  lemma RatingToggleFlips(f: Filters, rating: int, other: int)
    ensures RatingChecked(RatingToggled(f, rating), rating) <==> !RatingChecked(f, rating)
    ensures other != rating ==> !RatingChecked(RatingToggled(f, rating), other)
    ensures RatingToggled(f, rating).brands == f.brands && RatingToggled(f, rating).priceRange == f.priceRange
  {
  }

  /**
   * "Clear All" unchecks every box, the rating ones included (the record it
   * builds has no `minRating`); but a rating alone does not make the button
   * show.
   */
  lemma ClearFiltersUnchecksAll(f: Filters, range: PriceRange, brand: string, rating: int)
    ensures !PriceChecked(ClearFilters(), range) && !BrandChecked(ClearFilters(), brand)
    ensures !RatingChecked(ClearFilters(), rating)
    ensures ClearFilters() == NoFilters && !ShowsClearAll(ClearFilters())
    ensures f.brands == [] && f.priceRange.None? ==> !ShowsClearAll(f)
  {
  }
}
