/**
 * The pagination bar: a window of at most five page numbers around the
 * current page, clamped to `1..totalPages`, and the disabled state of the
 * Previous and Next buttons.
 */
module Pagination {

  const MaxPagesToShow: int := 5

  function Max(a: int, b: int): int {
    if a >= b then a else b
  }

  function Min(a: int, b: int): int {
    if a <= b then a else b
  }

  /** `getPageNumbers`: the page numbers to show, ascending. */
  method GetPageNumbers(currentPage: int, totalPages: int) returns (pages: seq<int>)
    // contiguous and ascending
    ensures forall k :: 0 <= k < |pages| ==> pages[k] == pages[0] + k
    // every page shown exists
    ensures forall k :: 0 <= k < |pages| ==> 1 <= pages[k] <= totalPages
    ensures |pages| == Max(0, Min(MaxPagesToShow, totalPages))
    ensures 1 <= currentPage <= totalPages ==> currentPage in pages
    // the window starts two before the current page, pushed right to page 1 and left to fit the last page
    ensures |pages| > 0 ==> pages[0] == Max(1, Min(currentPage - 2, totalPages - MaxPagesToShow + 1))
    // away from both ends the window is centred on the current page
    ensures currentPage >= 3 && currentPage + 2 <= totalPages ==>
              pages == [currentPage - 2, currentPage - 1, currentPage, currentPage + 1, currentPage + 2]
  {
    var startPage := Max(currentPage - 2, 1);
    var endPage := startPage + MaxPagesToShow - 1;
    if endPage > totalPages {
      endPage := totalPages;
      startPage := Max(endPage - MaxPagesToShow + 1, 1);
    }
    pages := [];
    var i := startPage;
    while i <= endPage
      invariant startPage <= i <= Max(startPage, endPage + 1)
      invariant |pages| == i - startPage
      invariant forall k :: 0 <= k < |pages| ==> pages[k] == startPage + k
    {
      pages := pages + [i];
      i := i + 1;
    }
    if currentPage >= 3 && currentPage + 2 <= totalPages {
      assert |pages| == 5;
    }
    if 1 <= currentPage <= totalPages {
      assert pages[currentPage - startPage] == currentPage;
    }
  }

  /** The Previous button is disabled exactly on page 1: on a real page, when there is no page before. */
  predicate PreviousDisabled(currentPage: int)
    ensures currentPage >= 1 ==> (PreviousDisabled(currentPage) <==> currentPage - 1 < 1)
  {
    currentPage == 1
  }

  /** The Next button is disabled exactly on the last page; with no pages at all it stays enabled. */
  predicate NextDisabled(currentPage: int, totalPages: int)
    ensures 1 <= currentPage <= totalPages ==> (NextDisabled(currentPage, totalPages) <==> currentPage + 1 > totalPages)
    ensures currentPage > totalPages ==> !NextDisabled(currentPage, totalPages)
  {
    currentPage == totalPages
  }

  /** A page button is highlighted when it is the current page. */
  predicate IsActive(page: int, currentPage: int) {
    page == currentPage
  }

  /** In a window of consecutive page numbers that holds the current page, exactly one button is highlighted. */
  lemma OneActiveButton(pages: seq<int>, currentPage: int)
    requires forall k :: 0 <= k < |pages| ==> pages[k] == pages[0] + k
    requires currentPage in pages
    ensures 0 <= currentPage - pages[0] < |pages| && IsActive(pages[currentPage - pages[0]], currentPage)
    ensures forall k :: 0 <= k < |pages| && IsActive(pages[k], currentPage) ==> k == currentPage - pages[0]
  {
    var j :| 0 <= j < |pages| && pages[j] == currentPage;
  }

  /** With no pages (an empty result), Next stays enabled on every real page. */
  lemma NextEnabledWithoutPages(currentPage: int)
    requires currentPage >= 1
    ensures !NextDisabled(currentPage, 0)
  {
  }

  /** Near either end the window stays five wide: page 2 of 10 shows 1..5, page 9 of 10 shows 6..10. */
  lemma WindowAtEnds(pages: seq<int>, currentPage: int, totalPages: int)
    requires totalPages >= MaxPagesToShow
    requires |pages| == MaxPagesToShow && forall k :: 0 <= k < |pages| ==> pages[k] == pages[0] + k
    requires pages[0] == Max(1, Min(currentPage - 2, totalPages - MaxPagesToShow + 1))
    ensures currentPage <= 3 ==> pages == [1, 2, 3, 4, 5]
    ensures currentPage >= totalPages - 2 ==>
              pages == [totalPages - 4, totalPages - 3, totalPages - 2, totalPages - 1, totalPages]
  {
    if currentPage <= 3 {
      assert pages[0] == 1;
    }
  }

  /** On a single page both buttons are disabled. */
  lemma SinglePageBothDisabled()
    ensures PreviousDisabled(1) && NextDisabled(1, 1)
  {
  }
}
