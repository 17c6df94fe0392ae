/** The pagination bar: which page buttons and ellipsis markers
    `getVisiblePages` lists, when the bar is drawn at all, and when the
    Previous and Next buttons are disabled. */
module Pagination {

  /** An entry of the list: a page button or a '...' marker. */
  datatype PageEntry = PageButton(page: int) | Ellipsis

  /** `maxVisiblePages`. */
  const MaxVisiblePages: int := 5

  /** Buttons for the pages `first` to `last`, in order. */
  function PageRun(first: int, last: int): seq<PageEntry>
  {
    seq(if last >= first then last - first + 1 else 0, k => PageButton(first + k))
  }

  /** The list `getVisiblePages` builds, case by case. */
  function PageWindow(currentPage: int, totalPages: int): seq<PageEntry> {
    if totalPages <= MaxVisiblePages then PageRun(1, totalPages)
    else if currentPage <= 3 then [PageButton(1)] + PageRun(2, 4) + [Ellipsis, PageButton(totalPages)]
    else if currentPage >= totalPages - 2 then [PageButton(1), Ellipsis] + PageRun(totalPages - 3, totalPages)
    else [PageButton(1), Ellipsis] + PageRun(currentPage - 1, currentPage + 1) + [Ellipsis, PageButton(totalPages)]
  }

  /** `getVisiblePages`, pushing entries one at a time in counted loops. */
  method GetVisiblePages(currentPage: int, totalPages: int) returns (pages: seq<PageEntry>)
    ensures pages == PageWindow(currentPage, totalPages)
  {
    pages := [];
    if totalPages <= MaxVisiblePages {
      var i := 1;
      while i <= totalPages
        invariant 1 <= i <= if totalPages >= 1 then totalPages + 1 else 1
        invariant pages == PageRun(1, i - 1)
      {
        pages := pages + [PageButton(i)];
        i := i + 1;
      }
    } else {
      pages := pages + [PageButton(1)];
      if currentPage <= 3 {
        var i := 2;
        while i <= 4
          invariant 2 <= i <= 5
          invariant pages == [PageButton(1)] + PageRun(2, i - 1)
        {
          pages := pages + [PageButton(i)];
          i := i + 1;
        }
        pages := pages + [Ellipsis];
        pages := pages + [PageButton(totalPages)];
      } else if currentPage >= totalPages - 2 {
        pages := pages + [Ellipsis];
        var i := totalPages - 3;
        while i <= totalPages
          invariant totalPages - 3 <= i <= totalPages + 1
          invariant pages == [PageButton(1), Ellipsis] + PageRun(totalPages - 3, i - 1)
        {
          pages := pages + [PageButton(i)];
          i := i + 1;
        }
      } else {
        pages := pages + [Ellipsis];
        var i := currentPage - 1;
        while i <= currentPage + 1
          invariant currentPage - 1 <= i <= currentPage + 2
          invariant pages == [PageButton(1), Ellipsis] + PageRun(currentPage - 1, i - 1)
        {
          pages := pages + [PageButton(i)];
          i := i + 1;
        }
        pages := pages + [Ellipsis];
        pages := pages + [PageButton(totalPages)];
      }
    }
  }

  // ---------------------------------------------------------------------
  // Properties of the page window

  /** The page buttons are strictly increasing from left to right. */
  predicate StrictlyIncreasing(pages: seq<PageEntry>) {
    forall i, j :: 0 <= i < j < |pages| && pages[i].PageButton? && pages[j].PageButton? ==>
      pages[i].page < pages[j].page
  }

  /** Every button names an existing page. */
  predicate InRange(pages: seq<PageEntry>, totalPages: int) {
    forall i :: 0 <= i < |pages| && pages[i].PageButton? ==> 1 <= pages[i].page <= totalPages
  }

  /** Each marker stands between two buttons and hides at least one page. */
  predicate EllipsesHidePages(pages: seq<PageEntry>) {
    forall i :: 0 <= i < |pages| && pages[i] == Ellipsis ==>
      0 < i < |pages| - 1 && pages[i - 1].PageButton? && pages[i + 1].PageButton?
      && pages[i + 1].page - pages[i - 1].page >= 2
  }

  /** The shape of the window: with at most five pages every page and no
      marker; otherwise six or seven entries, starting with page 1 and ending
      with the last page. */
  lemma PageWindowShape(currentPage: int, totalPages: int)
    ensures totalPages <= MaxVisiblePages ==>
      PageWindow(currentPage, totalPages) == PageRun(1, totalPages)
      && Ellipsis !in PageWindow(currentPage, totalPages)
    ensures totalPages > MaxVisiblePages && currentPage <= 3 ==>
      PageWindow(currentPage, totalPages)
      == [PageButton(1), PageButton(2), PageButton(3), PageButton(4), Ellipsis, PageButton(totalPages)]
    ensures totalPages > MaxVisiblePages && 3 < currentPage && currentPage >= totalPages - 2 ==>
      PageWindow(currentPage, totalPages)
      == [PageButton(1), Ellipsis, PageButton(totalPages - 3), PageButton(totalPages - 2),
          PageButton(totalPages - 1), PageButton(totalPages)]
    ensures totalPages > MaxVisiblePages && 3 < currentPage < totalPages - 2 ==>
      PageWindow(currentPage, totalPages)
      == [PageButton(1), Ellipsis, PageButton(currentPage - 1), PageButton(currentPage),
          PageButton(currentPage + 1), Ellipsis, PageButton(totalPages)]
    ensures |PageWindow(currentPage, totalPages)| <= 7
  {
    var w := PageWindow(currentPage, totalPages);
    if totalPages <= MaxVisiblePages {
      assert forall k :: 0 <= k < |w| ==> w[k] == PageButton(1 + k);
    } else if currentPage <= 3 {
      assert PageRun(2, 4) == [PageButton(2), PageButton(3), PageButton(4)];
    } else if currentPage >= totalPages - 2 {
      assert PageRun(totalPages - 3, totalPages)
          == [PageButton(totalPages - 3), PageButton(totalPages - 2), PageButton(totalPages - 1), PageButton(totalPages)];
    } else {
      assert PageRun(currentPage - 1, currentPage + 1)
          == [PageButton(currentPage - 1), PageButton(currentPage), PageButton(currentPage + 1)];
    }
  }

  predicate WellFormed(pages: seq<PageEntry>, totalPages: int) {
    StrictlyIncreasing(pages) && InRange(pages, totalPages) && EllipsesHidePages(pages)
  }

  /** Everything proved about one window: well formed, from page 1 to the
      last page, and listing the current page when it exists. */
  predicate WindowFacts(w: seq<PageEntry>, currentPage: int, totalPages: int) {
    && WellFormed(w, totalPages)
    && (totalPages >= 1 ==> |w| >= 1 && w[0] == PageButton(1) && w[|w| - 1] == PageButton(totalPages))
    && (1 <= currentPage <= totalPages ==> PageButton(currentPage) in w)
  }

  lemma SmallWindowFacts(currentPage: int, totalPages: int)
    requires totalPages <= MaxVisiblePages
    ensures WindowFacts(PageWindow(currentPage, totalPages), currentPage, totalPages)
  {
    var w := PageWindow(currentPage, totalPages);
    assert w == PageRun(1, totalPages);
    if 1 <= currentPage <= totalPages {
      assert w[currentPage - 1] == PageButton(currentPage);
    }
  }

  lemma HeadWindowFacts(currentPage: int, totalPages: int)
    requires totalPages > MaxVisiblePages && currentPage <= 3
    ensures WindowFacts(PageWindow(currentPage, totalPages), currentPage, totalPages)
  {
    PageWindowShape(currentPage, totalPages);
    var w := [PageButton(1), PageButton(2), PageButton(3), PageButton(4), Ellipsis, PageButton(totalPages)];
    assert WellFormed(w, totalPages);
    if 1 <= currentPage {
      assert w[currentPage - 1] == PageButton(currentPage);
    }
  }

  lemma TailWindowFacts(currentPage: int, totalPages: int)
    requires totalPages > MaxVisiblePages && 3 < currentPage && currentPage >= totalPages - 2
    ensures WindowFacts(PageWindow(currentPage, totalPages), currentPage, totalPages)
  {
    PageWindowShape(currentPage, totalPages);
    var w := [PageButton(1), Ellipsis, PageButton(totalPages - 3), PageButton(totalPages - 2),
              PageButton(totalPages - 1), PageButton(totalPages)];
    assert WellFormed(w, totalPages);
    if currentPage <= totalPages {
      assert w[currentPage - totalPages + 5] == PageButton(currentPage);
    }
  }

  lemma MiddleWindowFacts(currentPage: int, totalPages: int)
    requires totalPages > MaxVisiblePages && 3 < currentPage < totalPages - 2
    ensures WindowFacts(PageWindow(currentPage, totalPages), currentPage, totalPages)
  {
    PageWindowShape(currentPage, totalPages);
    var w := [PageButton(1), Ellipsis, PageButton(currentPage - 1), PageButton(currentPage),
              PageButton(currentPage + 1), Ellipsis, PageButton(totalPages)];
    assert WellFormed(w, totalPages);
    assert w[3] == PageButton(currentPage);
  }

  /** The buttons increase strictly, stay within [1, totalPages], start with 1
      and end with the last page; every marker hides at least one page; and
      the current page has a button whenever it exists. */
  lemma PageWindowProperties(currentPage: int, totalPages: int)
    ensures StrictlyIncreasing(PageWindow(currentPage, totalPages))
    ensures InRange(PageWindow(currentPage, totalPages), totalPages)
    ensures EllipsesHidePages(PageWindow(currentPage, totalPages))
    ensures totalPages >= 1 ==>
      PageWindow(currentPage, totalPages)[0] == PageButton(1)
      && PageWindow(currentPage, totalPages)[|PageWindow(currentPage, totalPages)| - 1] == PageButton(totalPages)
    ensures 1 <= currentPage <= totalPages ==> PageButton(currentPage) in PageWindow(currentPage, totalPages)
  {
    if totalPages <= MaxVisiblePages {
      SmallWindowFacts(currentPage, totalPages);
    } else if currentPage <= 3 {
      HeadWindowFacts(currentPage, totalPages);
    } else if currentPage >= totalPages - 2 {
      TailWindowFacts(currentPage, totalPages);
    } else {
      MiddleWindowFacts(currentPage, totalPages);
    }
  }

  // ---------------------------------------------------------------------
  // The bar around the window

  /** What the component renders: nothing, or the bar with its two buttons'
      disabled flags and the page list. */
  datatype Bar = Bar(previousDisabled: bool, nextDisabled: bool, pages: seq<PageEntry>)

  datatype Rendered = Hidden | Shown(bar: Bar)

  /** The component: hidden for at most one page; Previous disabled on the
      first page and Next on the last. */
  function Render(currentPage: int, totalPages: int): (r: Rendered)
    ensures r.Hidden? <==> totalPages <= 1
    ensures r.Shown? ==> r.bar.pages == PageWindow(currentPage, totalPages)
    ensures r.Shown? ==> (r.bar.previousDisabled <==> currentPage == 1)
    ensures r.Shown? ==> (r.bar.nextDisabled <==> currentPage == totalPages)
  {
    if totalPages <= 1 then Hidden
    else Shown(Bar(currentPage == 1, currentPage == totalPages, PageWindow(currentPage, totalPages)))
  }

  /** From a page that exists, every enabled control of a drawn bar leads to
      a page that exists: Previous, Next and each page button. */
  lemma NavigationStaysInRange(currentPage: int, totalPages: int)
    requires 1 <= currentPage <= totalPages
    ensures Render(currentPage, totalPages).Shown? ==>
      var bar := Render(currentPage, totalPages).bar;
      && (!bar.previousDisabled ==> 1 <= currentPage - 1 <= totalPages)
      && (!bar.nextDisabled ==> 1 <= currentPage + 1 <= totalPages)
      && InRange(bar.pages, totalPages)
      && |bar.pages| >= 2
  {
    PageWindowProperties(currentPage, totalPages);
    PageWindowShape(currentPage, totalPages);
  }

  /** Ten pages: the windows near the start, in the middle and near the end. */
  lemma TenPageExamples()
    ensures PageWindow(1, 10) == [PageButton(1), PageButton(2), PageButton(3), PageButton(4), Ellipsis, PageButton(10)]
    ensures PageWindow(5, 10) == [PageButton(1), Ellipsis, PageButton(4), PageButton(5), PageButton(6), Ellipsis, PageButton(10)]
    ensures PageWindow(9, 10) == [PageButton(1), Ellipsis, PageButton(7), PageButton(8), PageButton(9), PageButton(10)]
  {
    PageWindowShape(1, 10);
    PageWindowShape(5, 10);
    PageWindowShape(9, 10);
  }
}
