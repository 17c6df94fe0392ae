/** The filter panel's list and number computations: the category and brand
    choices offered, the patches its handlers dispatch, and the count on its
    badge. */
module FilterPanel {
  import opened ProductTypes
  import opened Text
  import Catalog

  // ---------------------------------------------------------------------
  // The choices offered: `[...new Set(values)]`

  /** A `Set` filled from `xs` in order, read back in insertion order: a value
      already present is not added again and keeps its place. */
  function Distinct(xs: seq<string>): seq<string> {
    if xs == [] then []
    else
      var d := Distinct(xs[..|xs| - 1]);
      if xs[|xs| - 1] in d then d else d + [xs[|xs| - 1]]
  }

  predicate NoDuplicates(xs: seq<string>) {
    forall i, j :: 0 <= i < j < |xs| ==> xs[i] != xs[j]
  }

  /** The position where `x` first occurs in `xs`. */
  function FirstIndex(xs: seq<string>, x: string): (r: nat)
    requires x in xs
    ensures r < |xs| && xs[r] == x
    ensures forall k :: 0 <= k < r ==> xs[k] != x
  {
    if xs[0] == x then 0 else 1 + FirstIndex(xs[1..], x)
  }

  /** A value occurring in a prefix first occurs at the same place in the
      whole sequence. */
  lemma FirstIndexPrefix(xs: seq<string>, n: nat, x: string)
    requires n <= |xs| && x in xs[..n]
    ensures FirstIndex(xs, x) == FirstIndex(xs[..n], x)
  {
    var i := FirstIndex(xs[..n], x);
    assert xs[i] == x;
  }

  /** The values without repeats, exactly those occurring, ordered by where
      each first occurs. */
  lemma {:induction false} DistinctMeaning(xs: seq<string>)
    ensures NoDuplicates(Distinct(xs))
    ensures forall x :: x in Distinct(xs) <==> x in xs
    ensures forall i, j :: 0 <= i < j < |Distinct(xs)| ==>
      FirstIndex(xs, Distinct(xs)[i]) < FirstIndex(xs, Distinct(xs)[j])
  {
    if xs != [] {
      var n := |xs| - 1;
      var front := xs[..n];
      var last := xs[n];
      DistinctMeaning(front);
      var d := Distinct(front);
      assert xs == front + [last];
      forall x | x in d
        ensures FirstIndex(xs, x) == FirstIndex(front, x)
      {
        FirstIndexPrefix(xs, n, x);
      }
      if last !in d {
        assert last !in front;
        assert FirstIndex(xs, last) == n;
      }
    }
  }

  /** The `category` of each product, in catalogue order. */
  function CategoryValues(products: seq<Product>): seq<string>
  {
    seq(|products|, i requires 0 <= i < |products| => products[i].category)
  }

  /** The `brand` of each product, in catalogue order. */
  function BrandValues(products: seq<Product>): seq<string>
  {
    seq(|products|, i requires 0 <= i < |products| => products[i].brand)
  }

  /** The categories offered. */
  function Categories(products: seq<Product>): seq<string> {
    Distinct(CategoryValues(products))
  }

  /** The brands offered. */
  function Brands(products: seq<Product>): seq<string> {
    Distinct(BrandValues(products))
  }

  /** Each category is offered once, and a category is offered exactly when
      some product has it; likewise for brands. */
  lemma ChoicesMeaning(products: seq<Product>)
    ensures NoDuplicates(Categories(products)) && NoDuplicates(Brands(products))
    ensures forall c :: c in Categories(products) <==> exists i :: 0 <= i < |products| && products[i].category == c
    ensures forall b :: b in Brands(products) <==> exists i :: 0 <= i < |products| && products[i].brand == b
  {
    var cs := CategoryValues(products);
    var bs := BrandValues(products);
    assert |cs| == |products| == |bs|;
    assert forall i :: 0 <= i < |products| ==> cs[i] == products[i].category && bs[i] == products[i].brand;
    DistinctMeaning(cs);
    DistinctMeaning(bs);
    forall c | c in cs
      ensures exists i :: 0 <= i < |products| && products[i].category == c
    {
      var i := FirstIndex(cs, c);
      assert products[i].category == c;
    }
    forall b | b in bs
      ensures exists i :: 0 <= i < |products| && products[i].brand == b
    {
      var i := FirstIndex(bs, b);
      assert products[i].brand == b;
    }
  }

  // ---------------------------------------------------------------------
  // The handlers' patches

  /** `list.filter(c => c !== v)`. */
  function Without(list: seq<string>, v: string): seq<string> {
    if list == [] then []
    else (if list[0] != v then [list[0]] else []) + Without(list[1..], v)
  }

  /** The list a checkbox change dispatches: checking appends the value,
      unchecking drops every copy of it. */
  function Toggled(list: seq<string>, v: string, checked: bool): seq<string> {
    if checked then list + [v] else Without(list, v)
  }

  /** Unchecking drops every copy of the value, keeps every copy of every
      other value, and keeps their order. */
  lemma WithoutMeaning(list: seq<string>, v: string)
    ensures v !in Without(list, v)
    ensures IsSubsequence(Without(list, v), list)
    ensures forall x :: x != v ==> multiset(Without(list, v))[x] == multiset(list)[x]
  {
    WithoutDrops(list, v);
    WithoutIsSubsequence(list, v);
    forall x | x != v
      ensures multiset(Without(list, v))[x] == multiset(list)[x]
    {
      WithoutCount(list, v, x);
    }
  }

  lemma {:induction false} WithoutDrops(list: seq<string>, v: string)
    ensures v !in Without(list, v)
  {
    if list != [] {
      WithoutDrops(list[1..], v);
    }
  }

  lemma {:induction false} WithoutIsSubsequence(list: seq<string>, v: string)
    ensures IsSubsequence(Without(list, v), list)
  {
    if list != [] {
      WithoutIsSubsequence(list[1..], v);
      var r := Without(list, v);
      if list[0] != v {
        assert r[0] == list[0] && r[1..] == Without(list[1..], v);
      } else {
        assert r == Without(list[1..], v);
      }
    }
  }

  lemma {:induction false} WithoutCount(list: seq<string>, v: string, x: string)
    requires x != v
    ensures multiset(Without(list, v))[x] == multiset(list)[x]
  {
    if list != [] {
      WithoutCount(list[1..], v, x);
      assert list == [list[0]] + list[1..];
    }
  }

  /** A value not in the list comes back out when unchecked right after
      being checked. */
  lemma {:induction false} ToggleRoundTrip(list: seq<string>, v: string)
    requires v !in list
    ensures Toggled(Toggled(list, v, true), v, false) == list
  {
    WithoutAppend(list, v);
    WithoutAbsent(list, v);
  }

  lemma {:induction false} WithoutAppend(list: seq<string>, v: string)
    ensures Without(list + [v], v) == Without(list, v)
  {
    if list == [] {
      assert Without([v], v) == [] + Without([], v);
    } else {
      assert (list + [v])[1..] == list[1..] + [v];
      WithoutAppend(list[1..], v);
    }
  }

  lemma {:induction false} WithoutAbsent(list: seq<string>, v: string)
    requires v !in list
    ensures Without(list, v) == list
  {
    if list != [] {
      WithoutAbsent(list[1..], v);
      assert list == [list[0]] + list[1..];
    }
  }

  /** `handleCategoryChange`: a patch of the categories alone. */
  function CategoryChange(f: Filter, category: string, checked: bool): FilterPatch {
    EmptyPatch.(categories := Some(Toggled(f.categories, category, checked)))
  }

  /** `handleBrandChange`: a patch of the brands alone. */
  function BrandChange(f: Filter, brand: string, checked: bool): FilterPatch {
    EmptyPatch.(brands := Some(Toggled(f.brands, brand, checked)))
  }

  /** `handlePriceRangeCommit`: the slider's pair as the price range. */
  function PriceRangeCommit(priceRange: (real, real)): FilterPatch {
    EmptyPatch.(priceRange := Some((priceRange.0, priceRange.1)))
  }

  /** `handleRatingChange`: clicking the active rating clears it. */
  function RatingChange(f: Filter, rating: real): FilterPatch {
    EmptyPatch.(rating := Some(if f.rating == rating then 0.0 else rating))
  }

  /** `handleInStockToggle`. */
  function InStockToggle(f: Filter): FilterPatch {
    EmptyPatch.(inStockOnly := Some(!f.inStockOnly))
  }

  /** `clearAllFilters`: every field back to its initial value. */
  const ClearAll: FilterPatch := FilterPatch(Some([]), Some((0.0, MaxPrice)), Some([]), Some(0.0), Some(false))

  /** Each handler, once merged by `setFilters`, changes its own field as
      stated and no other. */
  lemma HandlersChangeOneField(f: Filter, v: string, checked: bool, range: (real, real), rating: real)
    ensures Catalog.MergeFilters(f, CategoryChange(f, v, checked))
         == f.(categories := if checked then f.categories + [v] else Without(f.categories, v))
    ensures Catalog.MergeFilters(f, BrandChange(f, v, checked))
         == f.(brands := if checked then f.brands + [v] else Without(f.brands, v))
    ensures Catalog.MergeFilters(f, PriceRangeCommit(range)) == f.(priceRange := range)
    ensures Catalog.MergeFilters(f, RatingChange(f, rating)).rating == (if f.rating == rating then 0.0 else rating)
    ensures Catalog.MergeFilters(f, RatingChange(f, rating)) == f.(rating := Catalog.MergeFilters(f, RatingChange(f, rating)).rating)
    ensures Catalog.MergeFilters(f, InStockToggle(f)) == f.(inStockOnly := !f.inStockOnly)
  {
  }

  /** Two clicks on a rating that is not active leave no rating, and two
      toggles of the stock flag give back the criteria. */
  lemma TogglesTwice(f: Filter, rating: real)
    requires f.rating != rating
    ensures var once := Catalog.MergeFilters(f, RatingChange(f, rating));
      once.rating == rating && Catalog.MergeFilters(once, RatingChange(once, rating)).rating == 0.0
    ensures var once := Catalog.MergeFilters(f, InStockToggle(f));
      Catalog.MergeFilters(once, InStockToggle(once)) == f
  {
  }

  /** Clearing gives the store's initial criteria from any criteria. */
  lemma ClearAllRestoresDefault(f: Filter)
    ensures Catalog.MergeFilters(f, ClearAll) == DefaultFilter
  {
  }

  // ---------------------------------------------------------------------
  // The badge

  /** `activeFiltersCount`: one per chosen category and brand, and one each for
      a rating, the stock flag and a price range narrower than [0, 1000]. */
  function ActiveFiltersCount(f: Filter): nat {
    |f.categories| + |f.brands|
    + (if f.rating > 0.0 then 1 else 0)
    + (if f.inStockOnly then 1 else 0)
    + (if f.priceRange.0 > 0.0 || f.priceRange.1 < MaxPrice then 1 else 0)
  }

  /** The badge reads 0 exactly when no category, brand, rating or stock flag
      is set and the range covers [0, 1000]; it reads 0 after clearing. */
  lemma ActiveFiltersCountZero(f: Filter)
    ensures ActiveFiltersCount(f) == 0 <==>
      f.categories == [] && f.brands == [] && f.rating <= 0.0 && !f.inStockOnly
      && f.priceRange.0 <= 0.0 && f.priceRange.1 >= MaxPrice
    ensures ActiveFiltersCount(Catalog.MergeFilters(f, ClearAll)) == 0
    ensures ActiveFiltersCount(DefaultFilter) == 0
  {
  }

  /** With no badge and no search, every product priced within [0, 1000]
      matches the criteria. */
  lemma NoBadgeKeepsPriceBand(f: Filter, p: Product)
    requires ActiveFiltersCount(f) == 0
    requires 0.0 <= p.price <= MaxPrice
    ensures Catalog.Matches(p, f, "")
  {
    ActiveFiltersCountZero(f);
    IncludesEmpty(ToLower(p.name));
    assert ToLower("") == "";
  }
}
