/** The page selector shown under every paginated list. */
module Pagination {

  /** How many page buttons are shown: the current page and the next two. */
  const MaxPagesToShow: int := 3

  function Max(a: int, b: int): int { if a < b then b else a }

  function Min(a: int, b: int): int { if a < b then a else b }

  /**
   * The page numbers the selector shows: the consecutive integers from
   * max(1, currentPage) up to min(totalPages, currentPage + 2), none when
   * that range is empty.
   */
  function PageWindow(currentPage: int, totalPages: int): (r: seq<int>)
    ensures var lo, hi := Max(1, currentPage), Min(totalPages, currentPage + MaxPagesToShow - 1);
      && (r == [] <==> hi < lo)
      && (r != [] ==> r[0] == lo && r[|r| - 1] == hi)
    ensures forall i :: 0 < i < |r| ==> r[i] == r[i - 1] + 1
  {
    var lo, hi := Max(1, currentPage), Min(totalPages, currentPage + MaxPagesToShow - 1);
    if hi < lo then [] else seq(hi - lo + 1, i => lo + i)
  }

  /** At most three pages are shown, each of them a real page. */
  lemma PageWindowBounds(currentPage: int, totalPages: int)
    ensures |PageWindow(currentPage, totalPages)| <= MaxPagesToShow
    ensures forall p :: p in PageWindow(currentPage, totalPages) ==> 1 <= p <= totalPages
  {
    var r := PageWindow(currentPage, totalPages);
    if r != [] {
      ConsecutiveFromFirst(r);
    }
  }

  lemma {:induction false} ConsecutiveFromFirst(r: seq<int>)
    requires r != []
    requires forall i :: 0 < i < |r| ==> r[i] == r[i - 1] + 1
    ensures forall i :: 0 <= i < |r| ==> r[i] == r[0] + i
    ensures r[|r| - 1] == r[0] + |r| - 1
  {
    if |r| > 1 {
      ConsecutiveFromFirst(r[..|r| - 1]);
      assert r[|r| - 2] == r[..|r| - 1][|r| - 2];
    }
  }

  /** Beyond the last page nothing is shown; on a real page the window starts there. */
  lemma PageWindowStart(currentPage: int, totalPages: int)
    ensures currentPage > totalPages ==> PageWindow(currentPage, totalPages) == []
    ensures 1 <= currentPage <= totalPages ==>
      PageWindow(currentPage, totalPages) != [] && PageWindow(currentPage, totalPages)[0] == currentPage
  {
  }

  /** The guard of `changePage`: a real page that is not the current one. */
  predicate AcceptsPage(currentPage: int, totalPages: int, page: int) {
    !(page < 1 || page > totalPages || page == currentPage)
  }

  /** Every page button other than the current one leads to a page change. */
  lemma WindowPagesAccepted(currentPage: int, totalPages: int, page: int)
    requires page in PageWindow(currentPage, totalPages) && page != currentPage
    ensures AcceptsPage(currentPage, totalPages, page)
  {
    PageWindowBounds(currentPage, totalPages);
  }

  class PaginationComponent {
    var currentPage: int
    var totalPages: int

    constructor ()
      ensures currentPage == 1 && totalPages == 1
    {
      currentPage, totalPages := 1, 1;
    }

    /** The parent binds the two inputs. */
    method SetInputs(current: int, total: int)
      modifies this
      ensures currentPage == current && totalPages == total
    {
      currentPage, totalPages := current, total;
    }

    /** `getPages`: pushes startPage, ..., endPage in a loop. */
    method GetPages() returns (pages: seq<int>)
      ensures pages == PageWindow(currentPage, totalPages)
    {
      pages := [];
      var startPage := Max(1, currentPage);
      var endPage := Min(totalPages, currentPage + MaxPagesToShow - 1);
      var i := startPage;
      while i <= endPage
        invariant startPage <= i <= Max(startPage, endPage + 1)
        invariant |pages| == i - startPage
        invariant forall k :: 0 <= k < |pages| ==> pages[k] == startPage + k
      {
        pages := pages + [i];
        i := i + 1;
      }
    }

    /**
     * `changePage`: the pages emitted on `pageChange`. Nothing for a page
     * outside [1, totalPages] or for the current page, otherwise exactly
     * `page`, once. The inputs themselves are never changed.
     */
    method ChangePage(page: int) returns (emitted: seq<int>)
      ensures emitted == [] <==> !AcceptsPage(currentPage, totalPages, page)
      ensures emitted != [] ==> emitted == [page]
      ensures forall p :: p in emitted ==> 1 <= p <= totalPages && p != currentPage
    {
      if page < 1 || page > totalPages || page == currentPage {
        return [];
      }
      emitted := [page];
    }
  }
}
