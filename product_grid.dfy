/**
 * The catalog page's filter: six independent tests on each product, joined
 * by AND, over the list the page loaded; the "any filter active" flag; and
 * the reset.
 */
module ProductGrid {
  import opened Wrappers
  import opened Seqs
  import opened Text
  import opened Entities

  datatype Availability = All | InStock | OutOfStock

  /** The upper end of the price slider, and of the default range. */
  const MaxPrice := 100000

  datatype Criteria = Criteria(
    categories: seq<string>,
    minPrice: int,
    maxPrice: int,
    searchQuery: string,
    brands: seq<string>,
    minRating: int,
    availability: Availability)

  /** The initial state of every filter: `[]`, `[0, 100000]`, `""`, `[]`, `0`, `"all"`. */
  function Defaults(): Criteria {
    Criteria([], 0, MaxPrice, "", [], 0, All)
  }

  predicate MatchesCategory(c: Criteria, p: Product) {
    |c.categories| == 0 || p.category in c.categories
  }

  /** Inclusive at both ends. */
  predicate MatchesPrice(c: Criteria, p: Product) {
    c.minPrice <= p.price <= c.maxPrice
  }

  /** A case-insensitive substring of the name or the description; the empty query is falsy. */
  predicate MatchesSearch(c: Criteria, p: Product) {
    c.searchQuery == []
    || Contains(ToLower(p.name), ToLower(c.searchQuery))
    || Contains(ToLower(p.description), ToLower(c.searchQuery))
  }

  /** A product without a brand is in no selected list. */
  predicate MatchesBrand(c: Criteria, p: Product) {
    |c.brands| == 0 || (p.brand.Some? && p.brand.value in c.brands)
  }

  /** `minRating === 0 || (product.rating && product.rating >= minRating)`: a rating of 0 is falsy. */
  predicate MatchesRating(c: Criteria, p: Product) {
    c.minRating == 0 || (p.rating.Some? && p.rating.value != 0.0 && p.rating.value >= c.minRating as real)
  }

  predicate MatchesAvailability(c: Criteria, p: Product) {
    match c.availability
    case All => true
    case InStock => p.inStock
    case OutOfStock => !p.inStock
  }

  predicate Matches(c: Criteria, p: Product) {
    MatchesCategory(c, p) && MatchesPrice(c, p) && MatchesSearch(c, p)
    && MatchesBrand(c, p) && MatchesRating(c, p) && MatchesAvailability(c, p)
  }

  /** `products.filter(...)`: the matching products, each as often as it occurs, in catalog order. */
  function FilterProducts(c: Criteria, products: seq<Product>): (r: seq<Product>)
    ensures IsSubsequence(r, products)
    ensures forall p {:trigger multiset(r)[p]} :: multiset(r)[p] == if Matches(c, p) then multiset(products)[p] else 0
    ensures forall p :: p in r <==> p in products && Matches(c, p)
  {
    if products == [] then []
    else
      assert products == [products[0]] + products[1..];
      if Matches(c, products[0]) then [products[0]] + FilterProducts(c, products[1..])
      else FilterProducts(c, products[1..])
  }

  /** Filtering the filtered list again changes nothing. */
  lemma {:induction false} FilterIdempotent(c: Criteria, products: seq<Product>)
    ensures FilterProducts(c, FilterProducts(c, products)) == FilterProducts(c, products)
  {
    if products != [] {
      FilterIdempotent(c, products[1..]);
      if Matches(c, products[0]) {
        var r := FilterProducts(c, products);
        assert r[0] == products[0] && r[1..] == FilterProducts(c, products[1..]);
      }
    }
  }

  /** A range whose minimum exceeds its maximum keeps nothing. */
  lemma InvertedRangeKeepsNothing(c: Criteria, products: seq<Product>)
    requires c.minPrice > c.maxPrice
    ensures FilterProducts(c, products) == []
  {
  }

  /** Upper- and lower-case letters in the query select the same products. */
  lemma SearchIgnoresCase(c: Criteria, p: Product)
    ensures MatchesSearch(c.(searchQuery := ToLower(c.searchQuery)), p) <==> MatchesSearch(c, p)
  {
    assert ToLower(ToLower(c.searchQuery)) == ToLower(c.searchQuery);
  }

  /** A positive minimum rating drops every product whose rating is missing or 0. */
  lemma UnratedExcluded(c: Criteria, products: seq<Product>, p: Product)
    requires c.minRating > 0 && (p.rating.None? || p.rating == Some(0.0))
    ensures p !in FilterProducts(c, products)
  {
  }

  /** With the defaults, every product priced within the slider's range is shown. */
  lemma {:induction false} DefaultsKeepCatalog(products: seq<Product>)
    requires forall i :: 0 <= i < |products| ==> 0 <= products[i].price <= MaxPrice
    ensures FilterProducts(Defaults(), products) == products
  {
    if products != [] {
      DefaultsKeepCatalog(products[1..]);
      assert Matches(Defaults(), products[0]);
    }
  }

  /** `hasActiveFilters`. */
  predicate HasActiveFilters(c: Criteria) {
    |c.categories| > 0 || c.searchQuery != [] || c.minPrice > 0 || c.maxPrice < MaxPrice
    || |c.brands| > 0 || c.minRating > 0 || c.availability != All
  }

  /** The values the price and rating controls can produce. */
  predicate InControlRange(c: Criteria) {
    0 <= c.minPrice && c.maxPrice <= MaxPrice && 0 <= c.minRating
  }

  /** Within the controls' ranges, no filter is active exactly when every filter has its default. */
  lemma InactiveIffDefaults(c: Criteria)
    requires InControlRange(c)
    ensures !HasActiveFilters(c) <==> c == Defaults()
  {
  }

  class FilterState {
    var criteria: Criteria

    /** The search filter starts from the URL's `search` parameter, or `""`. */
    constructor (search: Option<string>)
      ensures criteria == Defaults().(searchQuery := search.GetOr(""))
    {
      criteria := Defaults().(searchQuery := search.GetOr(""));
    }

    /** The products the grid shows. */
    function Shown(products: seq<Product>): (r: seq<Product>)
      reads this
      ensures IsSubsequence(r, products)
      ensures forall p {:trigger multiset(r)[p]} :: multiset(r)[p] == if Matches(criteria, p) then multiset(products)[p] else 0
      ensures forall p :: p in r <==> p in products && Matches(criteria, p)
    {
      FilterProducts(criteria, products)
    }

    /** The URL effect: a non-empty `category` selects exactly that category; `search` always replaces the query. */
    method ApplySearchParams(category: Option<string>, search: Option<string>)
      modifies this
      ensures criteria == old(criteria).(
        categories := if category.Some? && category.value != [] then [category.value] else old(criteria).categories,
        searchQuery := search.GetOr(""))
    {
      if category.Some? && category.value != [] {
        criteria := criteria.(categories := [category.value]);
      }
      criteria := criteria.(searchQuery := search.GetOr(""));
    }

    /** `handleClearFilters` resets every filter but the search query. */
    method ClearFilters()
      modifies this
      ensures criteria == Defaults().(searchQuery := old(criteria).searchQuery)
    {
      criteria := criteria.(categories := [], minPrice := 0, maxPrice := MaxPrice, brands := [],
        minRating := 0, availability := All);
    }

    /** The reset followed by the navigation to "/": the URL then has no parameters, which clears the query. */
    method ClearFiltersAndGoHome()
      modifies this
      ensures criteria == Defaults() && !HasActiveFilters(criteria)
    {
      ClearFilters();
      ApplySearchParams(None, None);
    }
  }
}
