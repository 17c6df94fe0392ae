# Storefront state model

A Dafny model of the client-side state layer of a storefront. The catalogue store
('products' slice) holds the product list and the filter, search and sort
criteria. It also holds `filteredProducts`, the view derived from them, and the
page cursor. The cart store ('cart' slice) holds the cart lines, their total and
the drawer's open flag.

Beside the stores sit the pure computations the components put on top of them:
- the list of page buttons and `'...'` markers of the pagination bar;
- which slice of the view the product grid draws, in paged and in
  infinite-scroll mode;
- the filter panel's choice lists, the patches its handlers send, and its
  badge count.

The files, one module each:

- `product_types.dfy` (`ProductTypes`): the records `Product`, `CartItem`,
  `Filter` and the partial `FilterPatch`, the five sort keys, and the initial
  filter record.
- `text.dfy` (`Text`): the case fold, the substring test and the string
  comparison that the search and the name sort use.
- `sorting.dfy` (`Sorting`): the comparator of each sort key, a stable sort
  over it, and the reversal used for 'newest'.
- `catalog.dfy` (`Catalog`): the filter stages, the view they define, and the
  class `ProductStore`, whose methods are the slice's reducers.
  `applyFiltersAndSort` reassigns a local list stage by stage, as the source
  does.
- `cart.dfy` (`Cart`): the class `CartStore`, whose reducers update the lines
  and recompute the total by the same left fold as `calculateTotal`, plus the
  item count shown on the cart badges.
- `pagination.dfy` (`Pagination`): `getVisiblePages` as a method with the
  source's counted loops, proved equal to the case function `PageWindow`, and
  the bar's visibility and disabled buttons.
- `product_grid.dfy` (`ProductGrid`): the start and end indices, the slice,
  the load-more condition, and the choice between skeleton, empty state and
  cards.
- `filter_panel.dfy` (`FilterPanel`): the distinct categories and brands, the
  checkbox, rating, stock and clear-all patches, and `activeFiltersCount`.

Outside input becomes parameters:
- the sentinel's visibility (`inView`);
- whether an `onLoadMore` callback is given;
- the slider's committed pair.

## Model

| member | source | states |
|---|---|---|
| Text.ToLower | src/store/productSlice.ts:58-61 | the fold keeps the length, lowers each character and leaves no upper-case letter |
| Text.ToLowerIdempotent | src/store/productSlice.ts:58-61 | folding an already folded string changes nothing |
| Text.Includes | src/store/productSlice.ts:58-61 | `String.prototype.includes` as a recursive search; its meaning, an occurrence at some index, is stated by Text.IncludesIff |
| Text.IncludesIff | src/store/productSlice.ts:58-61 | `includes` holds exactly when the needle occurs at some index of the haystack |
| Text.IncludesEmpty | src/store/productSlice.ts:56 | every string includes the empty string, so a search with an empty query constrains nothing |
| Text.LocaleCompare | src/store/productSlice.ts:107 | the comparison returns -1, 0 or 1, and returns 0 exactly for equal names |
| Text.LocaleCompareAntisymmetric | src/store/productSlice.ts:107 | swapping the names negates the comparison |
| Text.LocaleCompareTransitive | src/store/productSlice.ts:107 | "not after" is transitive, so name order is a total order |
| Sorting.CompareAntisymmetric | src/store/productSlice.ts:96-108 | each key's comparator is antisymmetric |
| Sorting.CompareTransitive | src/store/productSlice.ts:96-108 | each key's comparator is transitive on "not after" |
| Sorting.Compare | src/store/productSlice.ts:96-108 | the comparator of each key; Sorting.CompareAntisymmetric and Sorting.CompareTransitive state that it orders consistently, Sorting.SortedMeaning what it orders by |
| Sorting.Insert | src/store/productSlice.ts:96-108 | one step of the stable sort; Sorting.InsertPermutes, Sorting.InsertSorted and Sorting.InsertTieClass state what it keeps |
| Sorting.StableSort | src/store/productSlice.ts:96-108 | `filtered.sort(cmp)`; Sorting.StableSortPermutes, Sorting.StableSortSorted and Sorting.StableSortStable state that it is a sorted, stable permutation |
| Sorting.Arrange | src/store/productSlice.ts:95-113 | the switch on the sort key; Sorting.ArrangePermutes and Catalog.CatalogViewOrder state what each branch yields |
| Sorting.InsertPermutes | src/store/productSlice.ts:96-108 | inserting one product adds exactly that product to the multiset |
| Sorting.InsertBounded | src/store/productSlice.ts:96-108 | a product not after the inserted one and not after any listed one is not after any product of the result |
| Sorting.InsertSorted | src/store/productSlice.ts:96-108 | inserting into a sorted list keeps it sorted |
| Sorting.TieClassAppend | src/store/productSlice.ts:96-108 | the products tied with `p` in a concatenation are those of each part, in order |
| Sorting.InsertTieClass | src/store/productSlice.ts:96-108 | insertion places the new product in front of every product it is tied with; since the sort inserts each product into the sorted rest, tied products keep their input order |
| Sorting.Reverse | src/store/productSlice.ts:109-111 | `reverse()` puts element `i` at position `n-1-i` and keeps the length |
| Sorting.ReverseInvolution | src/store/productSlice.ts:109-111 | reversing twice gives the input back |
| Sorting.ReversePermutes | src/store/productSlice.ts:109-111 | reversing keeps the multiset of products |
| Sorting.StableSortPermutes | src/store/productSlice.ts:96-108 | the sort returns a permutation (same multiset) of its input |
| Sorting.StableSortSorted | src/store/productSlice.ts:96-108 | after the sort no element precedes one it should follow under the comparator |
| Sorting.StableSortStable | src/store/productSlice.ts:96-108 | elements tied with any product keep their input order (stability) |
| Sorting.SortedMeaning | src/store/productSlice.ts:97-108 | sortedness read in field terms: price ascending, price descending, rating descending, name ascending |
| Sorting.ArrangePermutes | src/store/productSlice.ts:95-113 | every branch of the sort switch returns a permutation of the filtered list |
| Catalog.PageCount | src/store/productSlice.ts:116 | `ceil(n / perPage)`: the pages hold all `n` items, the last one is non-empty, and there are 0 pages exactly when `n = 0` |
| Catalog.MatchesSearch | src/store/productSlice.ts:56-62 | the query, folded, is included in the folded name, description, category or brand; used through Catalog.ActiveStagesMeaning |
| Catalog.Passes | src/store/productSlice.ts:57-92 | the predicate of each `filter` stage; Catalog.ActiveStagesMeaning states the stages' combined meaning |
| Catalog.ActiveStages | src/store/productSlice.ts:55-93 | the stages run, each under its guard; Catalog.ActiveStagesMeaning states that together they accept exactly the matching products |
| Catalog.Matches | src/store/productSlice.ts:55-93 | the plain conjunction of all criteria, the reference against which Catalog.ActiveStagesMeaning proves the guarded stages |
| Catalog.Matching | src/store/productSlice.ts:53-93 | the filtered list; Catalog.FilterCatalogue computes it stage by stage and Catalog.CatalogViewContents states its contents |
| Catalog.CatalogView | src/store/productSlice.ts:52-115 | the view: the filtered list arranged by the key; Catalog.CatalogViewContents and Catalog.CatalogViewOrder state its contents and order |
| Catalog.Keep | src/store/productSlice.ts:57-93 | filtering never lengthens the list |
| Catalog.KeepIsSubsequence | src/store/productSlice.ts:57-93 | filtering keeps the catalogue order: the result is a subsequence |
| Catalog.KeepCount | src/store/productSlice.ts:57-93 | a passing product keeps all its copies and a failing one keeps none |
| Catalog.KeepMembers | src/store/productSlice.ts:57-93 | a product is kept iff it is in the list and passes every stage |
| Catalog.KeepSnoc | src/store/productSlice.ts:53-93 | filtering the filtered list by one more stage equals filtering by all the stages at once |
| Catalog.KeepNothing | src/store/productSlice.ts:53 | with no active stage the copy of the catalogue is returned unchanged |
| Catalog.PassesAllSnoc | src/store/productSlice.ts:55-93 | passing the stages plus one more means passing the stages and that one |
| Catalog.ActiveStagesMeaning | src/store/productSlice.ts:55-93 | the guarded stages as run accept a product iff it meets the plain conjunction of all criteria (search, category, brand, price, rating, stock) |
| Catalog.CatalogViewContents | src/store/productSlice.ts:52-115 | the view holds each matching product as often as the catalogue does, and nothing else |
| Catalog.CatalogViewOrder | src/store/productSlice.ts:55-113 | before sorting the matches are a subsequence of the catalogue; 'newest' gives exactly their reverse; every other key gives a sorted and stable arrangement |
| Catalog.CatalogViewFromCatalogue | src/store/productSlice.ts:53-115 | every product of the view comes from the catalogue |
| Catalog.DefaultCriteriaKeepPriceBand | src/store/productSlice.ts:79-83 | under the initial criteria and an empty query, a product is kept iff it is priced in [0, 1000] |
| Catalog.MergeFilters | src/store/productSlice.ts:38-39 | the supplied fields of the patch replace the criteria's, and the others stay |
| Catalog.MergeFiltersLaws | src/store/productSlice.ts:38-39 | merging the same patch twice equals merging it once; an empty patch changes nothing |
| Catalog.FilterCatalogue | src/store/productSlice.ts:53-93 | the stage-by-stage reassignment of `filtered` yields exactly the matching subsequence |
| Catalog.Select | src/store/productSlice.ts:57-93 | one guarded `filtered = filtered.filter(...)` step extends the stages already run by one |
| Catalog.Rebuild | src/store/productSlice.ts:52-116 | filter then sort yields the arranged matching subsequence, drawn from the catalogue, and its page count `ceil(n/12)` |
| Catalog.ProductStore.constructor | src/store/productSlice.ts:4-21 | the initial state: empty lists, page 1 of 0, 12 per page, the default criteria, 'name', empty query |
| Catalog.ProductStore.Valid | src/store/productSlice.ts:52-117 | 12 items per page, `totalPages = ceil(n/12)` of the view, and every product of the view drawn from the catalogue; the store methods keep it |
| Catalog.ProductStore.SetProducts | src/store/productSlice.ts:27-31 | the payload becomes both lists, `totalPages` is recomputed, criteria, query, key and page are untouched |
| Catalog.ProductStore.SetLoading | src/store/productSlice.ts:32-34 | only `loading` changes |
| Catalog.ProductStore.SetError | src/store/productSlice.ts:35-37 | only `error` changes |
| Catalog.ProductStore.SetFilters | src/store/productSlice.ts:38-41 | criteria become the merge, page becomes 1, lists and `totalPages` are untouched |
| Catalog.ProductStore.SetSortBy | src/store/productSlice.ts:42-44 | only the key changes; the page is not reset |
| Catalog.ProductStore.SetSearchQuery | src/store/productSlice.ts:45-48 | the query is stored and the page becomes 1 |
| Catalog.ProductStore.SetCurrentPage | src/store/productSlice.ts:49-51 | the page is stored as given, unclamped |
| Catalog.ProductStore.ApplyFiltersAndSort | src/store/productSlice.ts:52-117 | the view becomes the arranged matching subsequence of `products`, `totalPages = ceil(n/12)`, everything else is untouched; the invariant (view drawn from the catalogue, page count) is kept |
| Catalog.ApplyTwice | src/store/productSlice.ts:52-117 | a second `applyFiltersAndSort` returns the same view as the first, for every key including 'newest' |
| Catalog.SearchScenario | src/store/productSlice.ts:27-117 | 25 products make 3 pages; a search matching 5 gives 1 page and puts the cursor on page 1 |
| Cart.FindLine | src/store/cartSlice.ts:15 | `find` returns the first line with the id, and nothing iff no line has it |
| Cart.LineTotal | src/store/cartSlice.ts:51 | price times quantity of one line; used by Cart.ReduceIsSum |
| Cart.Sum | src/store/cartSlice.ts:49-54 | the reference total, price times quantity summed over the lines; Cart.ReduceIsSum ties the fold to it |
| Cart.Reduce | src/store/cartSlice.ts:50-53 | the left fold of `calculateTotal` from 0; Cart.ReduceIsSum states that it equals Cart.Sum |
| Cart.ItemCount | src/components/CartDrawer.tsx:12 | the quantities summed; Cart.ItemCountBounds, Cart.ItemCountUpdate and Cart.ItemCountAppend state its behaviour |
| Cart.WithoutId | src/store/cartSlice.ts:26 | filtering out an id never lengthens the lines |
| Cart.AddLine | src/store/cartSlice.ts:15-21 | a line with the id gets quantity + 1; otherwise `(product, 1)` is appended; the total rises by that line's price and the count by 1; distinct ids and positive quantities are kept |
| Cart.ReduceIsSum | src/store/cartSlice.ts:49-54 | the left fold of `calculateTotal` equals the sum of price times quantity |
| Cart.SumAppend | src/store/cartSlice.ts:20 | the total of appended lines is the sum of the totals |
| Cart.SumUpdate | src/store/cartSlice.ts:18 | changing one line changes the total by that line's difference |
| Cart.WithoutIdKeeps | src/store/cartSlice.ts:26 | the filter keeps the order of the other lines and exactly the lines with another id |
| Cart.WithoutAbsentId | src/store/cartSlice.ts:26 | filtering out an absent id changes nothing |
| Cart.SumWithoutId | src/store/cartSlice.ts:26-27 | with distinct ids, removing a line lowers the total by that line's price times quantity |
| Cart.WithoutIdIgnoresLine | src/store/cartSlice.ts:32-34 | setting the quantity of the line that is then filtered out makes no difference |
| Cart.DistinctIdsWithout | src/store/cartSlice.ts:26 | removal keeps the ids distinct and the quantities positive |
| Cart.SubsequenceKeepsDistinct | src/store/cartSlice.ts:26 | any subsequence of the lines keeps distinct ids and positive quantities |
| Cart.RemovesOneLine | src/store/cartSlice.ts:26 | with distinct ids, removing a present id drops exactly one line |
| Cart.ItemCountBounds | src/components/CartDrawer.tsx:12 | with positive quantities, the item count is at least the number of lines, and 0 exactly for an empty cart |
| Cart.ItemCountUpdate | src/components/CartDrawer.tsx:12 | changing one line's quantity changes the count by the difference |
| Cart.ItemCountAppend | src/components/CartDrawer.tsx:12 | the count of appended lines is the sum of the counts |
| Cart.CartStore.constructor | src/store/cartSlice.ts:4-8 | no lines, total 0, drawer closed |
| Cart.CartStore.Valid | src/store/cartSlice.ts:14-54 | ids are distinct, quantities are at least 1, and `total` is the sum of the lines; every reducer keeps it |
| Cart.CartStore.CalculateTotal | src/store/cartSlice.ts:49-54 | `total` becomes the sum over the lines; lines and flag untouched |
| Cart.CartStore.AddToCart | src/store/cartSlice.ts:14-24 | a line with the id gets quantity + 1 and keeps its product record; otherwise `(product, 1)` is appended; the total rises by the line's price, the count by 1; ids stay distinct, quantities ≥ 1, total = sum |
| Cart.CartStore.RemoveFromCart | src/store/cartSlice.ts:25-28 | the lines become the filter without the id (an absent id changes nothing); a present id removes one line and its amount from the total; the invariant is kept |
| Cart.CartStore.UpdateQuantity | src/store/cartSlice.ts:29-38 | an absent id changes no line; a quantity ≤ 0 removes the line; a positive one replaces the quantity; the total is recomputed and the invariant kept |
| Cart.CartStore.ClearCart | src/store/cartSlice.ts:39-42 | no lines and total 0; the flag is untouched |
| Cart.CartStore.ToggleCart | src/store/cartSlice.ts:43-45 | the flag is negated; lines and total untouched |
| Cart.CartStore.SetCartOpen | src/store/cartSlice.ts:46-48 | the flag is set; lines and total untouched |
| Cart.AddSameProductTwice | src/store/cartSlice.ts:14-24 | two adds of one product give the single line `(product, 2)` and total twice its price |
| Cart.TwoProductsScenario | src/store/cartSlice.ts:14-24 | 2 × 10.00 plus 1 × 5.00 gives total 25.00 and count 3 |
| Cart.ZeroQuantityRemoves | src/store/cartSlice.ts:29-38 | setting quantity 0 on the only line empties the cart and the total |
| Pagination.PageRun | src/components/Pagination.tsx:29-31 | the buttons pushed by a counted loop from `first` to `last`; Pagination.GetVisiblePages is proved against it, and Pagination.PageWindowShape states the windows built from it |
| Pagination.PageWindow | src/components/Pagination.tsx:27-57 | the four cases as a function; Pagination.GetVisiblePages is proved equal to it, and Pagination.PageWindowShape and Pagination.PageWindowProperties state its shape and properties |
| Pagination.GetVisiblePages | src/components/Pagination.tsx:23-61 | the pushes of the counted loops build exactly the case list `PageWindow` |
| Pagination.PageWindowShape | src/components/Pagination.tsx:27-57 | the four cases written out: all pages for at most 5; `[1,2,3,4,…,tp]`; `[1,…,tp-3..tp]`; `[1,…,c-1,c,c+1,…,tp]`; at most 7 entries |
| Pagination.SmallWindowFacts | src/components/Pagination.tsx:27-31 | with at most 5 pages, the list 1..tp increases, lies in range, runs from 1 to tp and lists the current page |
| Pagination.HeadWindowFacts | src/components/Pagination.tsx:36-42 | near the start, the window increases, lies in range, its marker hides a page, it runs from 1 to tp and lists the current page |
| Pagination.TailWindowFacts | src/components/Pagination.tsx:43-48 | near the end, the window increases, lies in range, its marker hides a page, it runs from 1 to tp and lists the current page |
| Pagination.MiddleWindowFacts | src/components/Pagination.tsx:49-57 | in the middle, the window increases, lies in range, both markers hide a page, it runs from 1 to tp and lists the current page |
| Pagination.PageWindowProperties | src/components/Pagination.tsx:23-61 | the buttons strictly increase and lie in [1, tp]; every marker sits between buttons at least 2 apart; the list starts with 1 and ends with tp; the current page is listed when it exists |
| Pagination.Render | src/components/Pagination.tsx:11-118 | nothing is drawn iff tp ≤ 1; Previous is disabled iff on page 1, Next iff on page tp |
| Pagination.NavigationStaysInRange | src/components/Pagination.tsx:71-118 | from an existing page, Previous, Next and every page button lead to an existing page |
| Pagination.TenPageExamples | src/components/Pagination.tsx:23-61 | for ten pages, pages 1, 5 and 9 give the head, middle and tail windows |
| ProductGrid.Slice | src/components/ProductGrid.tsx:26-29 | `Array.prototype.slice` with non-negative bounds; ProductGrid.SliceRange, ProductGrid.PagedView and ProductGrid.InfiniteView state what it yields |
| ProductGrid.StartIndex | src/components/ProductGrid.tsx:21 | `(currentPage - 1) * itemsPerPage`; ProductGrid.PageBounds states its value |
| ProductGrid.EndIndex | src/components/ProductGrid.tsx:22-24 | the end index of each mode, as written; ProductGrid.PageBounds states `k·ipp` paged and `ipp·(2k-1)` infinite |
| ProductGrid.ProductsToShow | src/components/ProductGrid.tsx:26-29 | the slice drawn; ProductGrid.PagedView and ProductGrid.InfiniteView state what each mode shows |
| ProductGrid.Pages | src/components/ProductGrid.tsx:21-29 | paged views 1..k laid end to end, the reference for ProductGrid.PagesPrefix, ProductGrid.PagesCoverList and ProductGrid.IntendedInfiniteViewIsPages |
| ProductGrid.SliceRange | src/components/ProductGrid.tsx:26-29 | for `0 ≤ b ≤ e`, `slice(b, e)` is the subsequence between both indices clamped to the length |
| ProductGrid.PageBounds | src/components/ProductGrid.tsx:21-23 | for page k ≥ 1 the start is `(k-1)·ipp ≥ 0`, the paged end `k·ipp`, the infinite end `ipp·(2k-1)`, in that order |
| ProductGrid.PagedView | src/components/ProductGrid.tsx:21-29 | paged mode shows `s[(cp-1)·ipp .. cp·ipp)` clamped to the length, at most `ipp` products |
| ProductGrid.PagesPrefix | src/components/ProductGrid.tsx:21-29 | pages 1..k laid end to end are the first `k·ipp` products |
| ProductGrid.PageNonEmpty | src/components/ProductGrid.tsx:21-29 | a page shows something iff it starts before the end of the list |
| ProductGrid.PagesCoverList | src/components/ProductGrid.tsx:21-29 | the pages 1..totalPages concatenate to the whole list, each is non-empty, and any later page is empty |
| ProductGrid.InfiniteView | src/components/ProductGrid.tsx:21-28 | infinite mode as written shows the prefix of length `min(n, ipp·(2cp-1))` |
| ProductGrid.InfiniteViewGrows | src/components/ProductGrid.tsx:21-28 | the infinite view at page cp is a prefix of that at cp+1; at cp = 1 both modes agree |
| ProductGrid.LoadMoreReveals | src/components/ProductGrid.tsx:32-39 | more is requested only while products are hidden, the next page exists, and moving to it (as the page's `handleLoadMore` does) shows strictly more |
| ProductGrid.ShouldLoadMore | src/components/ProductGrid.tsx:32-39 | the effect's condition for calling `onLoadMore`; ProductGrid.LoadMoreReveals states what it implies |
| ProductGrid.LoadMore | src/pages/Index.tsx:34-36 | `handleLoadMore` moves the cursor to the next page; ProductGrid.LoadMoreReveals states that this shows strictly more |
| ProductGrid.NextPageExists | src/components/ProductGrid.tsx:32-39 | when the first cp pages do not hold every product, page cp + 1 exists |
| ProductGrid.HasMoreMeansHidden | src/components/ProductGrid.tsx:34 | `endIndex < n` in infinite mode iff the view leaves products out |
| ProductGrid.SeenAll | src/components/ProductGrid.tsx:92 | the "seen all" condition as written; ProductGrid.SeenAllMeaning states its meaning |
| ProductGrid.Grid | src/components/ProductGrid.tsx:41-97 | the choice of skeleton, empty state or cards and footer; ProductGrid.GridStates states each case |
| ProductGrid.SeenAllMeaning | src/components/ProductGrid.tsx:92 | "seen all" shows iff not loading, the list is non-empty and the infinite view holds all of it |
| ProductGrid.GridStates | src/components/ProductGrid.tsx:41-97 | skeleton of 12 iff loading with an empty view; empty state iff not loading and the list is empty or the page lies past its end; otherwise the view's cards, with a footer iff infinite mode |
| ProductGrid.InfiniteOvershoot | src/components/ProductGrid.tsx:22-23 | with 12 per page and ≥ 36 products, page 2 of infinite mode shows 36 products where pages 1–2 hold 24 |
| ProductGrid.IntendedInfiniteViewIsPages | src/components/ProductGrid.tsx:22-23 | with the corrected end index, infinite mode shows exactly pages 1..cp, and paged mode is unchanged |
| ProductGrid.IntendedLastPageShowsAll | src/components/ProductGrid.tsx:22-23 | with the corrected end index, the last page shows the whole list |
| FilterPanel.FirstIndex | src/components/Filters.tsx:29-30 | the index found holds the value and no earlier index does |
| FilterPanel.Distinct | src/components/Filters.tsx:29-30 | `[...new Set(xs)]`; FilterPanel.DistinctMeaning states its meaning |
| FilterPanel.FirstIndexPrefix | src/components/Filters.tsx:29-30 | a value in a prefix first occurs at the same index in the whole list |
| FilterPanel.DistinctMeaning | src/components/Filters.tsx:29-30 | `[...new Set(xs)]` has no repeats, holds exactly the values of `xs`, in order of first occurrence |
| FilterPanel.ChoicesMeaning | src/components/Filters.tsx:29-30 | each category and brand is offered once, and exactly those some product has |
| FilterPanel.Categories | src/components/Filters.tsx:29 | the category choices; FilterPanel.ChoicesMeaning states that each occurring category is offered once |
| FilterPanel.Brands | src/components/Filters.tsx:30 | the brand choices; FilterPanel.ChoicesMeaning states that each occurring brand is offered once |
| FilterPanel.Without | src/components/Filters.tsx:40 | `list.filter(c => c !== v)`; FilterPanel.WithoutMeaning states its meaning |
| FilterPanel.Toggled | src/components/Filters.tsx:38-40 | checking appends, unchecking removes; FilterPanel.ToggleRoundTrip and FilterPanel.HandlersChangeOneField state its effect |
| FilterPanel.WithoutMeaning | src/components/Filters.tsx:40 | unchecking drops every copy of the value, keeps all copies of others and their order |
| FilterPanel.WithoutDrops | src/components/Filters.tsx:40 | the unchecked value no longer occurs |
| FilterPanel.WithoutIsSubsequence | src/components/Filters.tsx:40 | the filter keeps the order of the remaining values |
| FilterPanel.WithoutCount | src/components/Filters.tsx:40 | every other value keeps all its copies |
| FilterPanel.WithoutAppend | src/components/Filters.tsx:37-43 | unchecking a value just appended drops the appended copy with the others |
| FilterPanel.WithoutAbsent | src/components/Filters.tsx:40 | unchecking a value not in the list changes nothing |
| FilterPanel.ToggleRoundTrip | src/components/Filters.tsx:37-51 | checking then unchecking a value not yet chosen gives the list back |
| FilterPanel.CategoryChange | src/components/Filters.tsx:37-43 | the patch of `handleCategoryChange`; FilterPanel.HandlersChangeOneField states its effect |
| FilterPanel.BrandChange | src/components/Filters.tsx:45-51 | the patch of `handleBrandChange`; FilterPanel.HandlersChangeOneField states its effect |
| FilterPanel.PriceRangeCommit | src/components/Filters.tsx:57-59 | the patch of `handlePriceRangeCommit`; FilterPanel.HandlersChangeOneField states its effect |
| FilterPanel.RatingChange | src/components/Filters.tsx:61-63 | the patch of `handleRatingChange`; FilterPanel.HandlersChangeOneField and FilterPanel.TogglesTwice state its effect |
| FilterPanel.InStockToggle | src/components/Filters.tsx:65-67 | the patch of `handleInStockToggle`; FilterPanel.HandlersChangeOneField and FilterPanel.TogglesTwice state its effect |
| FilterPanel.HandlersChangeOneField | src/components/Filters.tsx:37-67 | merged by `setFilters`, each handler changes its own field as stated (append / remove all, the committed pair, rating toggled to 0 or set, stock negated) and no other |
| FilterPanel.TogglesTwice | src/components/Filters.tsx:61-67 | clicking an inactive rating twice leaves rating 0; toggling stock twice gives back the criteria |
| FilterPanel.ClearAllRestoresDefault | src/components/Filters.tsx:69-78 | from any criteria, the constant patch `ClearAll` of `clearAllFilters` gives the store's initial criteria |
| FilterPanel.ActiveFiltersCount | src/components/Filters.tsx:80-85 | the badge count; FilterPanel.ActiveFiltersCountZero states when it is 0 |
| FilterPanel.ActiveFiltersCountZero | src/components/Filters.tsx:80-85 | the badge is 0 iff no category, brand, rating or stock flag is set and the range covers [0, 1000]; it is 0 after clearing and for the defaults |
| FilterPanel.NoBadgeKeepsPriceBand | src/components/Filters.tsx:80-85 | with badge 0 and no search, every product priced in [0, 1000] matches the criteria |

## Left out

- Rendering, styling, icons, the collapsible sections and sheets, and the
  local `useState` flags of the panels are not modelled.
- React hooks and effects, `useInView` and `scrollIntoView` are not
  modelled. The effect that dispatches `applyFiltersAndSort` after each
  criteria change is not modelled either. The sentinel's visibility is a
  parameter.
- Redux wiring (`configureStore`, typed hooks) and Immer drafts are not
  modelled. Each reducer is a method of a store class. Changing a found cart
  line in place is modelled as an update of the line sequence at its index.
- Toasts and the `mockProducts` seed are not modelled; src/data/mockProducts
  is not part of this model.
- JavaScript numbers are exact `real`s, so `toFixed`, rounding and drift in
  `total` are not modelled. Cart quantities are integers, so a fractional
  `updateQuantity` argument is not modelled.
- Text.LocaleCompare: collation is lexicographic on character codes, not
  locale-sensitive.
- Text.ToLower: `toLowerCase` folds only ASCII letters, with no Unicode case
  folding.
- Sorting.StableSort: `Array.prototype.sort` (stable since ES2019) is
  modelled as a stable insertion sort, a function on sequences. `sort` and
  `reverse` are not modelled as in-place array operations.
- ProductGrid.ProductsToShow: requires `currentPage ≥ 1`, so `slice` with
  negative indices is not modelled.
- SortingControls, Header and CartDrawer are not modelled beyond the item
  count; they only sequence dispatches and display values.
- The page cursor is never clamped against `totalPages`. The model keeps
  that behaviour: `SetCurrentPage`, `SetFilters` and `ApplyFiltersAndSort`
  assume no bound on the page.
- ProductGrid.Grid keeps the as-written end index, because it models what
  the component draws. The corrected end index is proved separately. The
  comment on the infinite-mode line, "Show all items up to current page",
  asks for the slice `[0, cp·ipp)`; the model follows the code, and the
  difference is listed under Findings.

## Findings

| source | as written | input that shows it | evidently intended | confidence | as-written member | corrected member |
|---|---|---|---|---|---|---|
| src/components/ProductGrid.tsx:22-23 | in infinite mode `endIndex = startIndex + itemsPerPage * currentPage`, i.e. `ipp·(2cp-1)` | 12 per page, page 2, 36 or more products: 36 shown | the first `cp` pages, `cp·ipp` products (24) | not executed | ProductGrid.InfiniteOvershoot | ProductGrid.IntendedInfiniteViewIsPages |
