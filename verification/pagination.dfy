/**
 * The page navigation bar (src/components/Pagination.tsx): how many pages a
 * list has, the window of at most five consecutive page numbers around the
 * current page, and the controls the bar renders. Page numbers are 1-based.
 */
module Pagination {
  import opened JsCore

  const MaxVisible := 5
  /** `Math.floor(maxVisible / 2)`. */
  const Half := 2

  function Max(a: int, b: int): int {
    if a >= b then a else b
  }

  function Min(a: int, b: int): int {
    if a <= b then a else b
  }

  /** `Math.ceil(a / b)` for a positive divisor. */
  function CeilDiv(a: int, b: int): (q: int)
    requires b > 0
    ensures (q - 1) * b < a <= q * b
  {
    -((-a) / b)
  }

  /** `Math.max(1, Math.ceil(totalCount / pageSize))`: at least one page, and enough pages for every item. */
  function TotalPages(totalCount: int, pageSize: int): (n: int)
    requires pageSize > 0
    ensures n >= 1
    ensures n == 1 <==> totalCount <= pageSize
    ensures totalCount > 0 ==> (n - 1) * pageSize < totalCount <= n * pageSize
  {
    Max(1, CeilDiv(totalCount, pageSize))
  }

  /**
   * `getPageNumbers`: starts two pages before the current one (not before 1),
   * ends five pages later (not after the last), and when that cut the window
   * short it moves the start back so five pages show when there are five.
   */
  function PageNumbers(currentPage: int, totalPages: int): (pages: seq<int>)
    requires totalPages >= 1
    ensures |pages| == Min(MaxVisible, totalPages)
    ensures forall i :: 0 <= i < |pages| ==> pages[i] == pages[0] + i
    ensures 1 <= pages[0] && pages[|pages| - 1] <= totalPages
    ensures 1 <= currentPage <= totalPages ==> currentPage in pages
  {
    var start := Max(1, currentPage - Half);
    var end := Min(totalPages, start + MaxVisible - 1);
    var first := if end - start + 1 < MaxVisible then Max(1, end - MaxVisible + 1) else start;
    var pages := seq(end - first + 1, i requires 0 <= i < end - first + 1 => first + i);
    assert 1 <= currentPage <= totalPages ==> pages[currentPage - first] == currentPage;
    pages
  }

  /**
   * Away from both ends the current page sits in the middle of the window;
   * near the first page the window starts at 1, near the last it ends there.
   */
  lemma WindowPlacement(currentPage: int, totalPages: int)
    requires 1 <= currentPage <= totalPages
    ensures var pages := PageNumbers(currentPage, totalPages);
            (currentPage - Half >= 1 && currentPage + Half <= totalPages ==> pages[Half] == currentPage)
            && (currentPage <= Half + 1 ==> pages[0] == 1)
            && (currentPage + Half >= totalPages ==> pages[|pages| - 1] == totalPages)
  {
  }

  /** A button: the page it requests when clicked, whether it can be clicked, whether it is highlighted. */
  datatype Button = Button(target: int, enabled: bool, highlighted: bool)

  /** The bar from left to right: previous, the `1` shortcut and a gap, the window, a gap and the last-page shortcut, next. */
  datatype Bar = Bar(
    previous: Button,
    first: Option<Button>,
    leadingGap: bool,
    pages: seq<Button>,
    trailingGap: bool,
    last: Option<Button>,
    next: Button)

  /** The rendered bar, or `None` when there is a single page and nothing is rendered. */
  function Render(currentPage: int, totalCount: int, pageSize: int): (bar: Option<Bar>)
    requires pageSize > 0
    ensures bar.None? <==> totalCount <= pageSize
  {
    var totalPages := TotalPages(totalCount, pageSize);
    if totalPages <= 1 then None
    else
      var window := PageNumbers(currentPage, totalPages);
      var low, high := window[0], window[|window| - 1];
      Some(Bar(
        Button(currentPage - 1, !(currentPage <= 1), false),
        if low > 1 then Some(Button(1, true, false)) else None,
        low > 1 && low > 2,
        seq(|window|, i requires 0 <= i < |window| => Button(window[i], true, window[i] == currentPage)),
        high < totalPages && high < totalPages - 1,
        if high < totalPages then Some(Button(totalPages, true, false)) else None,
        Button(currentPage + 1, !(currentPage >= totalPages), false)))
  }

  /** The window of a rendered bar, as page numbers. */
  function Window(bar: Bar): seq<int> {
    seq(|bar.pages|, i requires 0 <= i < |bar.pages| => bar.pages[i].target)
  }

  /**
   * Previous is disabled exactly on the first page and otherwise goes one page
   * back; next is disabled exactly on the last page and otherwise goes one
   * page on. For a current page in range, every enabled button requests a
   * page that exists.
   */
  lemma StepsAndTargets(currentPage: int, totalCount: int, pageSize: int)
    requires pageSize > 0 && totalCount > pageSize
    ensures var bar := Render(currentPage, totalCount, pageSize).value;
            var totalPages := TotalPages(totalCount, pageSize);
            (bar.previous.enabled <==> currentPage > 1) && bar.previous.target == currentPage - 1
            && (bar.next.enabled <==> currentPage < totalPages) && bar.next.target == currentPage + 1
    ensures var bar := Render(currentPage, totalCount, pageSize).value;
            var totalPages := TotalPages(totalCount, pageSize);
            1 <= currentPage <= totalPages ==>
              (bar.previous.enabled ==> 1 <= bar.previous.target <= totalPages)
              && (bar.next.enabled ==> 1 <= bar.next.target <= totalPages)
              && (bar.first.Some? ==> bar.first.value.target == 1)
              && (bar.last.Some? ==> bar.last.value.target == totalPages)
              && forall i :: 0 <= i < |bar.pages| ==> 1 <= bar.pages[i].target <= totalPages
  {
  }

  /**
   * The window shows `min(5, totalPages)` consecutive pages, and with the
   * current page in range exactly one of them, the current page, is highlighted.
   */
  lemma WindowContents(currentPage: int, totalCount: int, pageSize: int)
    requires pageSize > 0 && totalCount > pageSize
    ensures var bar := Render(currentPage, totalCount, pageSize).value;
            var totalPages := TotalPages(totalCount, pageSize);
            |bar.pages| == Min(MaxVisible, totalPages)
            && (forall i :: 0 <= i < |bar.pages| ==> bar.pages[i].target == bar.pages[0].target + i)
            && (forall i :: 0 <= i < |bar.pages| ==> (bar.pages[i].highlighted <==> bar.pages[i].target == currentPage))
    ensures var bar := Render(currentPage, totalCount, pageSize).value;
            1 <= currentPage <= TotalPages(totalCount, pageSize) ==>
              exists i :: 0 <= i < |bar.pages| && bar.pages[i].highlighted
  {
    var bar := Render(currentPage, totalCount, pageSize).value;
    var totalPages := TotalPages(totalCount, pageSize);
    var window := PageNumbers(currentPage, totalPages);
    if 1 <= currentPage <= totalPages {
      var i := currentPage - window[0];
      assert bar.pages[i].highlighted;
    }
  }

  /**
   * No page is skipped silently: each page from 1 to the last is in the
   * window, is a shortcut, or lies in a gap shown as an ellipsis; a shortcut
   * never repeats a page of the window, and a gap never hides nothing.
   */
  lemma EveryPageAccountedFor(currentPage: int, totalCount: int, pageSize: int, p: int)
    requires pageSize > 0 && totalCount > pageSize
    requires 1 <= p <= TotalPages(totalCount, pageSize)
    ensures var bar := Render(currentPage, totalCount, pageSize).value;
            var window := Window(bar);
            p in window
            || (bar.first.Some? && bar.first.value.target == p)
            || (bar.last.Some? && bar.last.value.target == p)
            || (bar.leadingGap && 1 < p < window[0])
            || (bar.trailingGap && window[|window| - 1] < p < TotalPages(totalCount, pageSize))
    ensures var bar := Render(currentPage, totalCount, pageSize).value;
            var window := Window(bar);
            (bar.first.Some? <==> 1 !in window)
            && (bar.last.Some? <==> TotalPages(totalCount, pageSize) !in window)
            && (bar.leadingGap <==> 1 !in window && 2 !in window)
            && (bar.trailingGap <==> TotalPages(totalCount, pageSize) !in window
                                     && TotalPages(totalCount, pageSize) - 1 !in window)
  {
    var bar := Render(currentPage, totalCount, pageSize).value;
    var totalPages := TotalPages(totalCount, pageSize);
    var pages := PageNumbers(currentPage, totalPages);
    var window := Window(bar);
    assert window == pages;
    if pages[0] <= p <= pages[|pages| - 1] {
      assert pages[p - pages[0]] == p;
    }
  }
}
