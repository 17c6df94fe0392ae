/** The product grid: which slice of `filteredProducts` is drawn in paged and in
    infinite-scroll mode, when more products are requested, and which of the
    skeleton, the empty state and the card grid is shown. */
module ProductGrid {
  import opened ProductTypes
  import Catalog

  function Min(a: int, b: int): int {
    if a <= b then a else b
  }

  /** `s.slice(begin, end)` for non-negative bounds: the end is clamped to the
      length, and a begin at or past the end gives nothing. */
  function Slice(s: seq<Product>, begin: int, end: int): seq<Product>
    requires 0 <= begin && 0 <= end
  {
    if begin < Min(end, |s|) then s[begin..Min(end, |s|)] else []
  }

  /** `startIndex`: where the current page begins. */
  function StartIndex(currentPage: int, itemsPerPage: nat): int {
    (currentPage - 1) * itemsPerPage
  }

  /** `endIndex` as written: one page past the start when paged, and
      `itemsPerPage * currentPage` past the start in infinite mode. */
  function EndIndex(currentPage: int, itemsPerPage: nat, infinite: bool): int {
    if infinite then StartIndex(currentPage, itemsPerPage) + itemsPerPage * currentPage
    else StartIndex(currentPage, itemsPerPage) + itemsPerPage
  }

  /** `productsToShow`: the slice from the start of the page (paged) or from 0
      (infinite) to `endIndex`. */
  function ProductsToShow(s: seq<Product>, currentPage: int, itemsPerPage: nat, infinite: bool): seq<Product>
    requires currentPage >= 1
  {
    Slice(s, if infinite then 0 else StartIndex(currentPage, itemsPerPage), EndIndex(currentPage, itemsPerPage, infinite))
  }

  /** The slice between two ordered bounds, as a sequence slice. */
  lemma SliceRange(s: seq<Product>, begin: int, end: int)
    requires 0 <= begin <= end
    ensures Slice(s, begin, end) == s[Min(begin, |s|)..Min(end, |s|)]
  {
  }

  /** The index arithmetic of page `k`, written out once. */
  lemma PageBounds(k: int, itemsPerPage: nat)
    requires k >= 1
    ensures StartIndex(k, itemsPerPage) == (k - 1) * itemsPerPage >= 0
    ensures EndIndex(k, itemsPerPage, false) == k * itemsPerPage
    ensures EndIndex(k, itemsPerPage, true) == itemsPerPage * (2 * k - 1)
    ensures itemsPerPage * (2 * (k + 1) - 1) == itemsPerPage * (2 * k - 1) + 2 * itemsPerPage
    ensures (k - 1) * itemsPerPage <= k * itemsPerPage <= itemsPerPage * (2 * k - 1)
  {
  }

  /** Paged mode shows the page's own stretch of the list, clamped to its
      length, and never more than one page of products. */
  lemma PagedView(s: seq<Product>, currentPage: int, itemsPerPage: nat)
    requires currentPage >= 1
    ensures ProductsToShow(s, currentPage, itemsPerPage, false)
         == s[Min((currentPage - 1) * itemsPerPage, |s|)..Min(currentPage * itemsPerPage, |s|)]
    ensures |ProductsToShow(s, currentPage, itemsPerPage, false)| <= itemsPerPage
  {
    PageBounds(currentPage, itemsPerPage);
    SliceRange(s, StartIndex(currentPage, itemsPerPage), EndIndex(currentPage, itemsPerPage, false));
  }

  /** The pages 1 to `count`, one after another. */
  function Pages(s: seq<Product>, itemsPerPage: nat, count: nat): seq<Product> {
    if count == 0 then [] else Pages(s, itemsPerPage, count - 1) + ProductsToShow(s, count, itemsPerPage, false)
  }

  /** The first `count` pages are exactly the first `count * itemsPerPage`
      products. */
  lemma {:induction false} PagesPrefix(s: seq<Product>, itemsPerPage: nat, count: nat)
    ensures Pages(s, itemsPerPage, count) == s[..Min(count * itemsPerPage, |s|)]
  {
    if count > 0 {
      PagesPrefix(s, itemsPerPage, count - 1);
      PagedView(s, count, itemsPerPage);
      PageBounds(count, itemsPerPage);
      var a := Min((count - 1) * itemsPerPage, |s|);
      var b := Min(count * itemsPerPage, |s|);
      assert s[..a] + s[a..b] == s[..b];
    }
  }

  /** Multiplying by a non-negative factor keeps the order. */
  lemma MulMonotone(a: int, b: int, c: nat)
    requires a <= b
    ensures a * c <= b * c
  {
  }

  /** The page `page` shows something exactly when it starts before the end. */
  lemma PageNonEmpty(s: seq<Product>, page: int, itemsPerPage: nat)
    requires page >= 1 && itemsPerPage > 0
    ensures ProductsToShow(s, page, itemsPerPage, false) != [] <==> StartIndex(page, itemsPerPage) < |s|
  {
  }

  /** The pages 1 to `totalPages` split the list: laid end to end they give it
      back, each of them holds at least one product, and a page past the last
      shows nothing. */
  lemma PagesCoverList(s: seq<Product>, itemsPerPage: nat)
    requires itemsPerPage > 0
    ensures Pages(s, itemsPerPage, Catalog.PageCount(|s|, itemsPerPage)) == s
    ensures forall page :: 1 <= page <= Catalog.PageCount(|s|, itemsPerPage) ==>
      ProductsToShow(s, page, itemsPerPage, false) != []
    ensures forall page :: page > Catalog.PageCount(|s|, itemsPerPage) ==>
      ProductsToShow(s, page, itemsPerPage, false) == []
  {
    var total := Catalog.PageCount(|s|, itemsPerPage);
    assert total * itemsPerPage >= |s|;
    assert total == 0 || (total - 1) * itemsPerPage < |s|;
    PagesPrefix(s, itemsPerPage, total);
    forall page | 1 <= page <= total
      ensures ProductsToShow(s, page, itemsPerPage, false) != []
    {
      MulMonotone(page - 1, total - 1, itemsPerPage);
      PageNonEmpty(s, page, itemsPerPage);
    }
    forall page | page > total
      ensures ProductsToShow(s, page, itemsPerPage, false) == []
    {
      MulMonotone(total, page - 1, itemsPerPage);
      PageNonEmpty(s, page, itemsPerPage);
    }
  }

  /** Infinite mode as written shows the first `itemsPerPage * (2 * currentPage - 1)`
      products, not the first `currentPage` pages. */
  lemma InfiniteView(s: seq<Product>, currentPage: int, itemsPerPage: nat)
    requires currentPage >= 1
    ensures ProductsToShow(s, currentPage, itemsPerPage, true)
         == s[..Min(itemsPerPage * (2 * currentPage - 1), |s|)]
  {
    PageBounds(currentPage, itemsPerPage);
    SliceRange(s, 0, EndIndex(currentPage, itemsPerPage, true));
  }

  /** Each further page in infinite mode extends the view; on the first page
      both modes show the same products. */
  lemma InfiniteViewGrows(s: seq<Product>, currentPage: int, itemsPerPage: nat)
    requires currentPage >= 1
    ensures ProductsToShow(s, currentPage, itemsPerPage, true)
         <= ProductsToShow(s, currentPage + 1, itemsPerPage, true)
    ensures ProductsToShow(s, 1, itemsPerPage, true) == ProductsToShow(s, 1, itemsPerPage, false)
  {
    InfiniteView(s, currentPage, itemsPerPage);
    InfiniteView(s, currentPage + 1, itemsPerPage);
    PageBounds(currentPage, itemsPerPage);
    InfiniteView(s, 1, itemsPerPage);
    PagedView(s, 1, itemsPerPage);
  }

  // ---------------------------------------------------------------------
  // Loading more, and the grid's three states

  /** The effect's condition for calling `onLoadMore`: the sentinel is in view,
      infinite mode is on, a callback is given, nothing is loading and
      `endIndex` has not reached the end of the list. */
  predicate ShouldLoadMore(inView: bool, infinite: bool, hasCallback: bool, loading: bool,
                           s: seq<Product>, currentPage: int, itemsPerPage: nat)
  {
    inView && infinite && hasCallback && !loading && EndIndex(currentPage, itemsPerPage, infinite) < |s|
  }

  /** `handleLoadMore` in the page: it moves to the next page. */
  function LoadMore(currentPage: int): int {
    currentPage + 1
  }

  /** More is requested only when products are still hidden, and only when the
      next page exists; that page then shows strictly more products. */
  lemma LoadMoreReveals(inView: bool, hasCallback: bool, loading: bool,
                        s: seq<Product>, currentPage: int, itemsPerPage: nat)
    requires currentPage >= 1 && itemsPerPage > 0
    requires ShouldLoadMore(inView, true, hasCallback, loading, s, currentPage, itemsPerPage)
    ensures |ProductsToShow(s, currentPage, itemsPerPage, true)| < |s|
    ensures LoadMore(currentPage) <= Catalog.PageCount(|s|, itemsPerPage)
    ensures |ProductsToShow(s, currentPage, itemsPerPage, true)|
          < |ProductsToShow(s, LoadMore(currentPage), itemsPerPage, true)|
  {
    PageBounds(currentPage, itemsPerPage);
    InfiniteView(s, currentPage, itemsPerPage);
    InfiniteView(s, currentPage + 1, itemsPerPage);
    NextPageExists(|s|, currentPage, itemsPerPage);
  }

  /** A page whose end lies before the end of the list is followed by another. */
  lemma NextPageExists(n: nat, currentPage: int, itemsPerPage: nat)
    requires currentPage >= 1 && itemsPerPage > 0
    requires currentPage * itemsPerPage < n
    ensures currentPage + 1 <= Catalog.PageCount(n, itemsPerPage)
  {
    var total := Catalog.PageCount(n, itemsPerPage);
    if total < currentPage + 1 {
      MulMonotone(total, currentPage, itemsPerPage);
    }
  }

  /** In infinite mode `endIndex < length` holds exactly when the view leaves
      products out, so more is requested only while some are hidden. */
  lemma HasMoreMeansHidden(s: seq<Product>, currentPage: int, itemsPerPage: nat)
    requires currentPage >= 1
    ensures EndIndex(currentPage, itemsPerPage, true) < |s|
        <==> |ProductsToShow(s, currentPage, itemsPerPage, true)| < |s|
  {
    InfiniteView(s, currentPage, itemsPerPage);
  }

  /** The footer of infinite mode: the spinner while loading, the
      "You've seen all products!" line once everything is shown. */
  datatype Footer = NoFooter | Footer(spinner: bool, seenAll: bool)

  /** The three renderings: twelve placeholder cards, the "No products found"
      panel, or the cards with the footer. */
  datatype GridView = Skeleton(cells: nat) | NoProducts | Cards(shown: seq<Product>, footer: Footer)

  /** The number of placeholder cards while loading. */
  const SkeletonCells: nat := 12

  /** The condition of the "seen all" line. */
  predicate SeenAll(infinite: bool, loading: bool, s: seq<Product>, currentPage: int, itemsPerPage: nat) {
    infinite && !loading && EndIndex(currentPage, itemsPerPage, infinite) >= |s| && |s| > 0
  }

  /** The component's choice between its three renderings. */
  function Grid(s: seq<Product>, currentPage: int, itemsPerPage: nat, infinite: bool, loading: bool): GridView
    requires currentPage >= 1
  {
    var shown := ProductsToShow(s, currentPage, itemsPerPage, infinite);
    if loading && |shown| == 0 then Skeleton(SkeletonCells)
    else if |shown| == 0 && !loading then NoProducts
    else Cards(shown, if infinite then Footer(loading, SeenAll(infinite, loading, s, currentPage, itemsPerPage)) else NoFooter)
  }

  /** "Seen all" shows exactly when infinite mode is on, nothing is loading,
      the list is non-empty and the view holds all of it. */
  lemma SeenAllMeaning(loading: bool, s: seq<Product>, currentPage: int, itemsPerPage: nat)
    requires currentPage >= 1
    ensures SeenAll(true, loading, s, currentPage, itemsPerPage)
        <==> !loading && |s| > 0 && ProductsToShow(s, currentPage, itemsPerPage, true) == s
  {
    InfiniteView(s, currentPage, itemsPerPage);
  }

  /** Which rendering appears: the skeleton while loading an empty view, the
      empty state when not loading and the view is empty (an empty list, or in
      paged mode a page past the end), and otherwise the cards of the view
      followed, in infinite mode only, by the footer. */
  lemma GridStates(s: seq<Product>, currentPage: int, itemsPerPage: nat, infinite: bool, loading: bool)
    requires currentPage >= 1 && itemsPerPage > 0
    ensures var shown := ProductsToShow(s, currentPage, itemsPerPage, infinite);
      && (Grid(s, currentPage, itemsPerPage, infinite, loading).Skeleton? <==> loading && shown == [])
      && (Grid(s, currentPage, itemsPerPage, infinite, loading).NoProducts? <==>
            !loading && (|s| == 0 || (!infinite && StartIndex(currentPage, itemsPerPage) >= |s|)))
      && (Grid(s, currentPage, itemsPerPage, infinite, loading).Cards? ==>
            Grid(s, currentPage, itemsPerPage, infinite, loading).shown == shown && shown != []
            && (Grid(s, currentPage, itemsPerPage, infinite, loading).footer.Footer? <==> infinite))
    ensures Grid(s, currentPage, itemsPerPage, infinite, loading).Skeleton? ==>
      Grid(s, currentPage, itemsPerPage, infinite, loading).cells == 12
  {
    if infinite {
      InfiniteView(s, currentPage, itemsPerPage);
      PageBounds(currentPage, itemsPerPage);
      MulMonotone(1, currentPage, itemsPerPage);
    } else {
      PagedView(s, currentPage, itemsPerPage);
    }
  }

  // ---------------------------------------------------------------------
  // The infinite-mode end index, corrected

  /** The end index infinite mode evidently intends: the end of the current
      page, so that the view is pages 1 to `currentPage`. */
  function IntendedEndIndex(currentPage: int, itemsPerPage: nat, infinite: bool): int {
    if infinite then currentPage * itemsPerPage
    else StartIndex(currentPage, itemsPerPage) + itemsPerPage
  }

  function IntendedProductsToShow(s: seq<Product>, currentPage: int, itemsPerPage: nat, infinite: bool): seq<Product>
    requires currentPage >= 1
  {
    Slice(s, if infinite then 0 else StartIndex(currentPage, itemsPerPage), IntendedEndIndex(currentPage, itemsPerPage, infinite))
  }

  /** With the corrected end index, infinite mode shows exactly the pages 1 to
      `currentPage` laid end to end, paged mode is unchanged, and both agree
      on the first page. */
  lemma IntendedInfiniteViewIsPages(s: seq<Product>, currentPage: int, itemsPerPage: nat)
    requires currentPage >= 1
    ensures IntendedProductsToShow(s, currentPage, itemsPerPage, true) == Pages(s, itemsPerPage, currentPage)
    ensures IntendedProductsToShow(s, currentPage, itemsPerPage, false) == ProductsToShow(s, currentPage, itemsPerPage, false)
    ensures IntendedProductsToShow(s, 1, itemsPerPage, true) == ProductsToShow(s, 1, itemsPerPage, false)
  {
    PagesPrefix(s, itemsPerPage, currentPage);
    SliceRange(s, 0, currentPage * itemsPerPage);
    assert StartIndex(1, itemsPerPage) == 0 && 1 * itemsPerPage == itemsPerPage;
  }

  /** With the corrected end index, reaching the last page shows the whole list. */
  lemma IntendedLastPageShowsAll(s: seq<Product>, itemsPerPage: nat)
    requires itemsPerPage > 0 && |s| > 0
    ensures IntendedProductsToShow(s, Catalog.PageCount(|s|, itemsPerPage), itemsPerPage, true) == s
  {
    IntendedInfiniteViewIsPages(s, Catalog.PageCount(|s|, itemsPerPage), itemsPerPage);
    PagesCoverList(s, itemsPerPage);
  }

  /** The discrepancy: with twelve per page and at least 36 products, the
      second page of infinite scrolling shows 36 products, where the first two
      pages hold 24. */
  lemma InfiniteOvershoot(s: seq<Product>)
    requires |s| >= 36
    ensures |ProductsToShow(s, 2, 12, true)| == 36
    ensures |IntendedProductsToShow(s, 2, 12, true)| == 24
    ensures |Pages(s, 12, 2)| == 24
  {
    InfiniteView(s, 2, 12);
    IntendedInfiniteViewIsPages(s, 2, 12);
    PagesPrefix(s, 12, 2);
  }
}
