/**
 * The page bar of src/components/ui/Pagination.tsx: at most five numbered buttons around the
 * current page, and first/previous/next/last buttons with their targets and disabled states.
 * All callers use zero-indexed pages; the one-indexed mode is modelled as written.
 */
module Pagination {

  function Min(a: int, b: int): int { if a <= b then a else b }
  function Max(a: int, b: int): int { if a >= b then a else b }

  /** The page number shown to the user: one more than `currentPage` in zero-indexed mode. */
  function DisplayPage(currentPage: int, zeroIndexed: bool): int
  {
    if zeroIndexed then currentPage + 1 else currentPage
  }

  /** `Array.from({length: Math.min(5, totalPages)})`: a negative length gives no buttons. */
  function ButtonCount(totalPages: int): (n: nat)
    ensures n <= 5 && n <= Max(totalPages, 0)
    ensures totalPages >= 5 ==> n == 5
  {
    Max(0, Min(5, totalPages))
  }

  /** The index the `i`-th button shows. */
  function WindowIndex(currentPage: int, totalPages: int, zeroIndexed: bool, i: int): int
  {
    var displayPage := DisplayPage(currentPage, zeroIndexed);
    if totalPages <= 5 then i
    else if displayPage <= 3 then i
    else if displayPage >= totalPages - 2 then totalPages - 5 + i
    else displayPage - 3 + i
  }

  /**
   * `pages`: `min(5, totalPages)` page indices. With at most five pages they are all of them;
   * otherwise five consecutive indices inside `[0, totalPages)`, wherever the current page is.
   */
  function PageWindow(currentPage: int, totalPages: int, zeroIndexed: bool): (pages: seq<int>)
    ensures |pages| == ButtonCount(totalPages)
    ensures totalPages <= 5 ==> forall i :: 0 <= i < |pages| ==> pages[i] == i
    ensures forall i :: 0 <= i < |pages| ==> pages[i] == pages[0] + i
    ensures forall i :: 0 <= i < |pages| ==> 0 <= pages[i] < totalPages
  {
    seq(ButtonCount(totalPages), i requires 0 <= i < ButtonCount(totalPages) =>
      WindowIndex(currentPage, totalPages, zeroIndexed, i))
  }

  /** The page a numbered button selects (and compares with `currentPage`). */
  function PageNumber(pageIndex: int, zeroIndexed: bool): int
  {
    if zeroIndexed then pageIndex else pageIndex + 1
  }

  /** A valid current page: `[0, totalPages)` in zero-indexed mode, `[1, totalPages]` otherwise. */
  predicate InRange(currentPage: int, totalPages: int, zeroIndexed: bool)
  {
    if zeroIndexed then 0 <= currentPage < totalPages else 1 <= currentPage <= totalPages
  }

  /**
   * For a valid current page, exactly one numbered button selects it, and that is the one
   * marked `aria-current`.
   */
  lemma WindowMarksCurrentOnce(currentPage: int, totalPages: int, zeroIndexed: bool)
    requires InRange(currentPage, totalPages, zeroIndexed)
    ensures var pages := PageWindow(currentPage, totalPages, zeroIndexed);
      exists i :: 0 <= i < |pages| && PageNumber(pages[i], zeroIndexed) == currentPage &&
        forall j :: 0 <= j < |pages| && PageNumber(pages[j], zeroIndexed) == currentPage ==> j == i
  {
    var pages := PageWindow(currentPage, totalPages, zeroIndexed);
    var target := if zeroIndexed then currentPage else currentPage - 1;
    WindowCoversCurrent(currentPage, totalPages, zeroIndexed);
    var i := target - pages[0];
    assert PageNumber(pages[i], zeroIndexed) == currentPage;
  }

  /** The window's indices run from its first index over a range that contains the current page's index. */
  lemma WindowCoversCurrent(currentPage: int, totalPages: int, zeroIndexed: bool)
    requires InRange(currentPage, totalPages, zeroIndexed)
    ensures var pages := PageWindow(currentPage, totalPages, zeroIndexed);
      var target := if zeroIndexed then currentPage else currentPage - 1;
      |pages| > 0 && pages[0] <= target < pages[0] + |pages|
  {
    var pages := PageWindow(currentPage, totalPages, zeroIndexed);
    assert pages[0] == WindowIndex(currentPage, totalPages, zeroIndexed, 0);
    if totalPages > 5 {
      assert |pages| == 5;
    }
  }

  // ---------------------------------------------------------------------------------------------
  // Navigation buttons

  function FirstTarget(): int { 0 }

  function PreviousTarget(currentPage: int): int { Max(0, currentPage - 1) }

  function NextTarget(currentPage: int, totalPages: int): int { Min(totalPages - 1, currentPage + 1) }

  function LastTarget(totalPages: int): int { totalPages - 1 }

  /** First and previous are disabled on page 0. */
  predicate BackDisabled(currentPage: int) { currentPage == 0 }

  /** Next and last are disabled on page `totalPages - 1`, as written. */
  predicate ForwardDisabled(currentPage: int, totalPages: int) { currentPage == totalPages - 1 }

  /**
   * On a valid zero-indexed page every navigation target is a valid page, an enabled back
   * button moves exactly one page back (or to 0), and an enabled forward button exactly one
   * page on (or to the last).
   */
  lemma NavigationTargets(currentPage: int, totalPages: int)
    requires 0 <= currentPage < totalPages
    ensures 0 <= PreviousTarget(currentPage) < totalPages && 0 <= NextTarget(currentPage, totalPages) < totalPages
    ensures 0 <= LastTarget(totalPages) < totalPages
    ensures BackDisabled(currentPage) <==> PreviousTarget(currentPage) == currentPage
    ensures !BackDisabled(currentPage) ==> PreviousTarget(currentPage) == currentPage - 1
    ensures ForwardDisabled(currentPage, totalPages) <==> NextTarget(currentPage, totalPages) == currentPage
    ensures !ForwardDisabled(currentPage, totalPages) ==> NextTarget(currentPage, totalPages) == currentPage + 1
  {
  }

  /**
   * With no pages at all (`totalPages == 0`, `currentPage == 0`) the forward buttons stay
   * enabled and ask for page -1. The admin pages never pass 0: they fall back to one page.
   */
  lemma EmptyListForwardGoesToMinusOne()
    ensures !ForwardDisabled(0, 0)
    ensures NextTarget(0, 0) == -1 && LastTarget(0) == -1
  {
  }
}
