/** The catalogue store (the 'products' slice): the full product list, the
    filter, search and sort criteria, the page cursor and the derived view
    that `applyFiltersAndSort` rebuilds. */
module Catalog {
  import opened ProductTypes
  import opened Text
  import opened Sorting

  /** Products per page, the store's `itemsPerPage`. */
  const ItemsPerPage: nat := 12

  /** `Math.ceil(n / perPage)`. */
  function PageCount(n: nat, perPage: nat): (pages: nat)
    requires perPage > 0
    ensures pages * perPage >= n
    ensures pages == 0 || (pages - 1) * perPage < n
    ensures pages == 0 <==> n == 0
  {
    (n + perPage - 1) / perPage
  }

  // ---------------------------------------------------------------------
  // Filter stages

  /** One `filtered = filtered.filter(...)` step of `applyFiltersAndSort`. */
  datatype Stage =
    | SearchStage(query: string)
    | CategoryStage(categories: seq<string>)
    | BrandStage(brands: seq<string>)
    | PriceStage(low: real, high: real)
    | RatingStage(minimum: real)
    | StockStage

  /** The case-insensitive search over name, description, category and brand. */
  predicate MatchesSearch(p: Product, query: string) {
    var needle := ToLower(query);
    Includes(ToLower(p.name), needle) || Includes(ToLower(p.description), needle)
    || Includes(ToLower(p.category), needle) || Includes(ToLower(p.brand), needle)
  }

  /** The predicate one stage keeps a product by. */
  predicate Passes(stage: Stage, p: Product) {
    match stage
    case SearchStage(q) => MatchesSearch(p, q)
    case CategoryStage(cs) => p.category in cs
    case BrandStage(bs) => p.brand in bs
    case PriceStage(lo, hi) => lo <= p.price && p.price <= hi
    case RatingStage(min) => p.rating >= min
    case StockStage => p.inStock
  }

  predicate PassesAll(stages: seq<Stage>, p: Product) {
    forall i :: 0 <= i < |stages| ==> Passes(stages[i], p)
  }

  /** The products of `s` that pass every stage, in their order in `s`. */
  function Keep(s: seq<Product>, stages: seq<Stage>): (r: seq<Product>)
    ensures |r| <= |s|
  {
    if s == [] then []
    else (if PassesAll(stages, s[0]) then [s[0]] else []) + Keep(s[1..], stages)
  }

  /** The stages `applyFiltersAndSort` runs for these criteria, in its order:
      each guarded stage only when its guard holds; the price stage always.
      The five prefixes name the stages run up to each step. */
  function SearchStages(query: string): seq<Stage> {
    if query != "" then [SearchStage(query)] else []
  }

  function CategoryStages(f: Filter, query: string): seq<Stage> {
    var before := SearchStages(query);
    if |f.categories| > 0 then before + [CategoryStage(f.categories)] else before
  }

  function BrandStages(f: Filter, query: string): seq<Stage> {
    var before := CategoryStages(f, query);
    if |f.brands| > 0 then before + [BrandStage(f.brands)] else before
  }

  function PriceStages(f: Filter, query: string): seq<Stage> {
    BrandStages(f, query) + [PriceStage(f.priceRange.0, f.priceRange.1)]
  }

  function RatingStages(f: Filter, query: string): seq<Stage> {
    var before := PriceStages(f, query);
    if f.rating > 0.0 then before + [RatingStage(f.rating)] else before
  }

  function ActiveStages(f: Filter, query: string): seq<Stage> {
    var before := RatingStages(f, query);
    if f.inStockOnly then before + [StockStage] else before
  }

  /** The criteria as one conjunction, written independently of the stages:
      the search is not guarded by a non-empty query here. */
  predicate Matches(p: Product, f: Filter, query: string) {
    && MatchesSearch(p, query)
    && (|f.categories| > 0 ==> p.category in f.categories)
    && (|f.brands| > 0 ==> p.brand in f.brands)
    && f.priceRange.0 <= p.price <= f.priceRange.1
    && (f.rating > 0.0 ==> p.rating >= f.rating)
    && (f.inStockOnly ==> p.inStock)
  }

  /** The products matching the criteria, in catalogue order. */
  function Matching(products: seq<Product>, f: Filter, query: string): seq<Product> {
    Keep(products, ActiveStages(f, query))
  }

  /** The derived view `applyFiltersAndSort` stores in `filteredProducts`. */
  function CatalogView(products: seq<Product>, f: Filter, query: string, key: SortBy): seq<Product> {
    Arrange(key, Matching(products, f, query))
  }

  // ---------------------------------------------------------------------
  // Lemmas about the filter stages

  /** Filtering is order preserving. */
  lemma {:induction false} KeepIsSubsequence(s: seq<Product>, stages: seq<Stage>)
    ensures IsSubsequence(Keep(s, stages), s)
  {
    if s != [] {
      KeepIsSubsequence(s[1..], stages);
      var r := Keep(s, stages);
      if PassesAll(stages, s[0]) {
        assert r[0] == s[0] && r[1..] == Keep(s[1..], stages);
      } else {
        assert r == Keep(s[1..], stages);
      }
    }
  }

  /** Filtering keeps every copy of a product that passes and no other. */
  lemma {:induction false} KeepCount(s: seq<Product>, stages: seq<Stage>, x: Product)
    ensures multiset(Keep(s, stages))[x] == if PassesAll(stages, x) then multiset(s)[x] else 0
  {
    if s != [] {
      KeepCount(s[1..], stages, x);
      assert s == [s[0]] + s[1..];
    }
  }

  /** Soundness and completeness of a filter, as membership. */
  lemma KeepMembers(s: seq<Product>, stages: seq<Stage>, x: Product)
    ensures x in Keep(s, stages) <==> x in s && PassesAll(stages, x)
  {
    KeepCount(s, stages, x);
    assert x in Keep(s, stages) <==> x in multiset(Keep(s, stages));
    assert x in s <==> x in multiset(s);
  }

  /** Running one more stage on a filtered list filters by all the stages. */
  lemma {:induction false} KeepSnoc(s: seq<Product>, stages: seq<Stage>, stage: Stage)
    ensures Keep(Keep(s, stages), [stage]) == Keep(s, stages + [stage])
  {
    if s != [] {
      KeepSnoc(s[1..], stages, stage);
      var kept := Keep(s, stages);
      PassesAllSnoc(stages, stage, s[0]);
      PassesAllSnoc([], stage, s[0]);
      if PassesAll(stages, s[0]) {
        assert kept == [s[0]] + Keep(s[1..], stages);
        assert kept[1..] == Keep(s[1..], stages);
      } else {
        assert kept == Keep(s[1..], stages);
      }
    }
  }

  /** With no stage, the filter keeps everything. */
  lemma {:induction false} KeepNothing(s: seq<Product>)
    ensures Keep(s, []) == s
  {
    if s != [] {
      KeepNothing(s[1..]);
      assert s == [s[0]] + s[1..];
    }
  }

  lemma PassesAllSnoc(stages: seq<Stage>, stage: Stage, p: Product)
    ensures PassesAll(stages + [stage], p) <==> PassesAll(stages, p) && Passes(stage, p)
  {
    assert forall i :: 0 <= i < |stages| ==> (stages + [stage])[i] == stages[i];
    assert (stages + [stage])[|stages|] == stage;
  }

  /** The stages as run agree with the conjunction of the criteria; the
      skipped empty-query search is harmless because every string includes "". */
  lemma ActiveStagesMeaning(f: Filter, query: string, p: Product)
    ensures PassesAll(ActiveStages(f, query), p) <==> Matches(p, f, query)
  {
    if query == "" {
      IncludesEmpty(ToLower(p.name));
    }
    PassesAllSnoc([], SearchStage(query), p);
    PassesAllSnoc(SearchStages(query), CategoryStage(f.categories), p);
    PassesAllSnoc(CategoryStages(f, query), BrandStage(f.brands), p);
    PassesAllSnoc(BrandStages(f, query), PriceStage(f.priceRange.0, f.priceRange.1), p);
    PassesAllSnoc(PriceStages(f, query), RatingStage(f.rating), p);
    PassesAllSnoc(RatingStages(f, query), StockStage, p);
  }

  /** Every product of the view comes from the catalogue and meets every
      active criterion; every product that meets them is shown, as often as
      it occurs in the catalogue. */
  lemma {:induction false} CatalogViewContents(products: seq<Product>, f: Filter, query: string, key: SortBy, x: Product)
    ensures multiset(CatalogView(products, f, query, key))[x]
         == if Matches(x, f, query) then multiset(products)[x] else 0
    ensures x in CatalogView(products, f, query, key) <==> x in products && Matches(x, f, query)
  {
    var matching := Matching(products, f, query);
    ArrangePermutes(key, matching);
    KeepCount(products, ActiveStages(f, query), x);
    ActiveStagesMeaning(f, query, x);
    assert x in CatalogView(products, f, query, key) <==> x in multiset(CatalogView(products, f, query, key));
    assert x in products <==> x in multiset(products);
  }

  /** The order of the view: a stable sort of the matching subsequence for
      the four comparator keys and its exact reverse for 'newest'. */
  lemma CatalogViewOrder(products: seq<Product>, f: Filter, query: string, key: SortBy, p: Product)
    ensures IsSubsequence(Matching(products, f, query), products)
    ensures key == Newest ==> CatalogView(products, f, query, key) == Reverse(Matching(products, f, query))
    ensures key != Newest ==> Sorted(key, CatalogView(products, f, query, key))
    ensures key != Newest ==>
      TieClass(key, CatalogView(products, f, query, key), p) == TieClass(key, Matching(products, f, query), p)
  {
    var matching := Matching(products, f, query);
    KeepIsSubsequence(products, ActiveStages(f, query));
    if key != Newest {
      StableSortSorted(key, matching);
      StableSortStable(key, matching, p);
    }
  }

  /** The view never holds more than the catalogue does. */
  lemma CatalogViewFromCatalogue(products: seq<Product>, f: Filter, query: string, key: SortBy)
    ensures multiset(CatalogView(products, f, query, key)) <= multiset(products)
  {
    forall x
      ensures multiset(CatalogView(products, f, query, key))[x] <= multiset(products)[x]
    {
      CatalogViewContents(products, f, query, key, x);
    }
  }

  /** The default criteria keep exactly the products priced in [0, 1000]:
      the price stage is the one stage that always runs. */
  lemma DefaultCriteriaKeepPriceBand(products: seq<Product>, x: Product)
    ensures x in Matching(products, DefaultFilter, "") <==> x in products && 0.0 <= x.price <= MaxPrice
  {
    KeepMembers(products, ActiveStages(DefaultFilter, ""), x);
    ActiveStagesMeaning(DefaultFilter, "", x);
    IncludesEmpty(ToLower(x.name));
  }

  // ---------------------------------------------------------------------
  // setFilters

  /** `{ ...filters, ...patch }`: the supplied fields replace, the rest stay. */
  function MergeFilters(f: Filter, patch: FilterPatch): (r: Filter)
    ensures patch.categories.Some? ==> r.categories == patch.categories.value
    ensures patch.categories.None? ==> r.categories == f.categories
    ensures patch.priceRange.Some? ==> r.priceRange == patch.priceRange.value
    ensures patch.priceRange.None? ==> r.priceRange == f.priceRange
    ensures patch.brands.Some? ==> r.brands == patch.brands.value
    ensures patch.brands.None? ==> r.brands == f.brands
    ensures patch.rating.Some? ==> r.rating == patch.rating.value
    ensures patch.rating.None? ==> r.rating == f.rating
    ensures patch.inStockOnly.Some? ==> r.inStockOnly == patch.inStockOnly.value
    ensures patch.inStockOnly.None? ==> r.inStockOnly == f.inStockOnly
  {
    Filter(
      patch.categories.GetOr(f.categories),
      patch.priceRange.GetOr(f.priceRange),
      patch.brands.GetOr(f.brands),
      patch.rating.GetOr(f.rating),
      patch.inStockOnly.GetOr(f.inStockOnly))
  }

  /** Merging a patch twice is merging it once; the empty patch changes nothing. */
  lemma MergeFiltersLaws(f: Filter, patch: FilterPatch)
    ensures MergeFilters(MergeFilters(f, patch), patch) == MergeFilters(f, patch)
    ensures MergeFilters(f, EmptyPatch) == f
  {
  }

  /** One `filtered = filtered.filter(...)` step, applied to the list the
      stages `ran` so far have left of the catalogue `all`. */
  method Select(ghost all: seq<Product>, filtered: seq<Product>, ghost ran: seq<Stage>, stage: Stage)
    returns (r: seq<Product>)
    requires filtered == Keep(all, ran)
    ensures r == Keep(all, ran + [stage])
  {
    KeepSnoc(all, ran, stage);
    r := Keep(filtered, [stage]);
  }

  /** The filter half of `applyFiltersAndSort`: starting from a copy of the
      catalogue, each active stage narrows the list in turn. */
  method FilterCatalogue(products: seq<Product>, f: Filter, query: string) returns (filtered: seq<Product>)
    ensures filtered == Matching(products, f, query)
  {
    filtered := products;
    KeepNothing(products);
    if query != "" {
      filtered := Select(products, filtered, [], SearchStage(query));
      assert [] + [SearchStage(query)] == SearchStages(query);
    }
    assert filtered == Keep(products, SearchStages(query));
    if |f.categories| > 0 {
      filtered := Select(products, filtered, SearchStages(query), CategoryStage(f.categories));
    }
    assert filtered == Keep(products, CategoryStages(f, query));
    if |f.brands| > 0 {
      filtered := Select(products, filtered, CategoryStages(f, query), BrandStage(f.brands));
    }
    assert filtered == Keep(products, BrandStages(f, query));
    filtered := Select(products, filtered, BrandStages(f, query),
                       PriceStage(f.priceRange.0, f.priceRange.1));
    if f.rating > 0.0 {
      filtered := Select(products, filtered, PriceStages(f, query), RatingStage(f.rating));
    }
    assert filtered == Keep(products, RatingStages(f, query));
    if f.inStockOnly {
      filtered := Select(products, filtered, RatingStages(f, query), StockStage);
    }
    assert filtered == Matching(products, f, query);
  }

  /** The body of `applyFiltersAndSort` on values: filter, sort, count pages. */
  method Rebuild(products: seq<Product>, f: Filter, query: string, key: SortBy)
    returns (filtered: seq<Product>, pages: nat)
    ensures filtered == CatalogView(products, f, query, key)
    ensures forall x :: x in filtered ==> x in products
    ensures pages == PageCount(|filtered|, ItemsPerPage)
  {
    filtered := FilterCatalogue(products, f, query);
    filtered := Arrange(key, filtered);
    forall x | x in filtered ensures x in products {
      CatalogViewContents(products, f, query, key, x);
    }
    pages := PageCount(|filtered|, ItemsPerPage);
  }

  // ---------------------------------------------------------------------
  // The store

  class ProductStore {
    var products: seq<Product>
    var filteredProducts: seq<Product>
    var loading: bool
    var error: Option<string>
    var currentPage: int
    var totalPages: nat
    const itemsPerPage: nat
    var filters: Filter
    var sortBy: SortBy
    var searchQuery: string

    /** The page count always describes `filteredProducts`, and the view only
        ever holds products of the catalogue. `currentPage` is unconstrained. */
    ghost predicate Valid()
      reads this
    {
      && itemsPerPage == ItemsPerPage
      && totalPages == PageCount(|filteredProducts|, itemsPerPage)
      && (forall x :: x in filteredProducts ==> x in products)
    }

    /** `initialState`. */
    constructor ()
      ensures Valid()
      ensures products == [] && filteredProducts == []
      ensures !loading && error == None
      ensures currentPage == 1 && totalPages == 0
      ensures filters == DefaultFilter && sortBy == Name && searchQuery == ""
    {
      products := [];
      filteredProducts := [];
      loading := false;
      error := None;
      currentPage := 1;
      totalPages := 0;
      itemsPerPage := ItemsPerPage;
      filters := DefaultFilter;
      sortBy := Name;
      searchQuery := "";
    }

    /** `setProducts`: the payload becomes both the catalogue and the view,
        unfiltered; criteria and page cursor are left alone. */
    method SetProducts(payload: seq<Product>)
      requires Valid()
      modifies this
      ensures Valid()
      ensures products == payload && filteredProducts == payload
      ensures totalPages == PageCount(|payload|, itemsPerPage)
      ensures filters == old(filters) && sortBy == old(sortBy) && searchQuery == old(searchQuery)
      ensures currentPage == old(currentPage) && loading == old(loading) && error == old(error)
    {
      products := payload;
      filteredProducts := payload;
      totalPages := PageCount(|payload|, itemsPerPage);
    }

    method SetLoading(value: bool)
      requires Valid()
      modifies this
      ensures Valid()
      ensures loading == value
      ensures products == old(products) && filteredProducts == old(filteredProducts)
      ensures totalPages == old(totalPages) && currentPage == old(currentPage) && error == old(error)
      ensures filters == old(filters) && sortBy == old(sortBy) && searchQuery == old(searchQuery)
    {
      loading := value;
    }

    method SetError(value: Option<string>)
      requires Valid()
      modifies this
      ensures Valid()
      ensures error == value
      ensures products == old(products) && filteredProducts == old(filteredProducts)
      ensures totalPages == old(totalPages) && currentPage == old(currentPage) && loading == old(loading)
      ensures filters == old(filters) && sortBy == old(sortBy) && searchQuery == old(searchQuery)
    {
      error := value;
    }

    /** `setFilters`: merges the patch and goes back to page 1; the view is
        only rebuilt by a later `applyFiltersAndSort`. */
    method SetFilters(patch: FilterPatch)
      requires Valid()
      modifies this
      ensures Valid()
      ensures filters == MergeFilters(old(filters), patch)
      ensures currentPage == 1
      ensures products == old(products) && filteredProducts == old(filteredProducts)
      ensures totalPages == old(totalPages) && sortBy == old(sortBy) && searchQuery == old(searchQuery)
      ensures loading == old(loading) && error == old(error)
    {
      filters := MergeFilters(filters, patch);
      currentPage := 1;
    }

    /** `setSortBy`: changes the key and nothing else, not even the page. */
    method SetSortBy(key: SortBy)
      requires Valid()
      modifies this
      ensures Valid()
      ensures sortBy == key
      ensures products == old(products) && filteredProducts == old(filteredProducts)
      ensures totalPages == old(totalPages) && currentPage == old(currentPage)
      ensures filters == old(filters) && searchQuery == old(searchQuery)
      ensures loading == old(loading) && error == old(error)
    {
      sortBy := key;
    }

    /** `setSearchQuery`: stores the query and goes back to page 1. */
    method SetSearchQuery(query: string)
      requires Valid()
      modifies this
      ensures Valid()
      ensures searchQuery == query && currentPage == 1
      ensures products == old(products) && filteredProducts == old(filteredProducts)
      ensures totalPages == old(totalPages) && filters == old(filters) && sortBy == old(sortBy)
      ensures loading == old(loading) && error == old(error)
    {
      searchQuery := query;
      currentPage := 1;
    }

    /** `setCurrentPage`: stores the page as given, with no clamping. */
    method SetCurrentPage(page: int)
      requires Valid()
      modifies this
      ensures Valid()
      ensures currentPage == page
      ensures products == old(products) && filteredProducts == old(filteredProducts)
      ensures totalPages == old(totalPages) && filters == old(filters)
      ensures sortBy == old(sortBy) && searchQuery == old(searchQuery)
      ensures loading == old(loading) && error == old(error)
    {
      currentPage := page;
    }

    /** `applyFiltersAndSort`: rebuilds the view from `products` (never from
        the previous view), stage by stage, then sorts and recounts pages. */
    method ApplyFiltersAndSort()
      requires Valid()
      modifies this
      ensures Valid()
      ensures filteredProducts == CatalogView(products, filters, searchQuery, sortBy)
      ensures totalPages == PageCount(|filteredProducts|, itemsPerPage)
      ensures products == old(products) && filters == old(filters)
      ensures sortBy == old(sortBy) && searchQuery == old(searchQuery)
      ensures currentPage == old(currentPage) && loading == old(loading) && error == old(error)
    {
      var filtered, pages := Rebuild(products, filters, searchQuery, sortBy);
      filteredProducts, totalPages := filtered, pages;
    }
  }

  /** Running `applyFiltersAndSort` a second time changes nothing, for every
      sort key including 'newest', since it starts again from `products`. */
  method ApplyTwice(store: ProductStore) returns (once: seq<Product>, twice: seq<Product>)
    requires store.Valid()
    modifies store
    ensures store.Valid()
    ensures once == twice == store.filteredProducts
    ensures twice == CatalogView(store.products, store.filters, store.searchQuery, store.sortBy)
    ensures store.products == old(store.products) && store.filters == old(store.filters)
    ensures store.sortBy == old(store.sortBy) && store.searchQuery == old(store.searchQuery)
    ensures store.currentPage == old(store.currentPage)
  {
    store.ApplyFiltersAndSort();
    once := store.filteredProducts;
    store.ApplyFiltersAndSort();
    twice := store.filteredProducts;
  }

  /** A catalogue of 25 products fills three pages; a search that matches
      five of them leaves one page and puts the cursor back on page 1. */
  method SearchScenario(catalogue: seq<Product>, query: string) returns (pagesBefore: nat, pagesAfter: nat, page: int)
    requires |catalogue| == 25
    requires |Matching(catalogue, DefaultFilter, query)| == 5
    ensures pagesBefore == 3 && pagesAfter == 1 && page == 1
  {
    var store := new ProductStore();
    store.SetProducts(catalogue);
    pagesBefore := store.totalPages;
    store.SetSearchQuery(query);
    store.ApplyFiltersAndSort();
    StableSortPermutes(Name, Matching(catalogue, DefaultFilter, query));
    assert |store.filteredProducts| == |multiset(store.filteredProducts)|;
    pagesAfter := store.totalPages;
    page := store.currentPage;
  }
}
