/**
 * Pagination arithmetic of the four list views: the "Mostrando start-end de
 * total" window written by every fetch, and the prev/next controls that
 * `setupPagination` configures.
 */
module Paging {

  import opened Optional

  /** `itemsPerPage` */
  const ITEMS_PER_PAGE: int := 10

  function Min(a: int, b: int): int {
    if a <= b then a else b
  }

  /** `Math.ceil(t / d)` for integers: Dafny's `/` rounds down for a positive
      divisor, so the ceiling is the negated floor of `-t / d`. */
  function CeilDiv(t: int, d: int): (k: int)
    requires d > 0
    ensures (k - 1) * d < t <= k * d
  {
    var q := (-t) / d;
    assert q * d <= -t < (q + 1) * d;
    -q
  }

  /** `response.total || response.data.length`: a zero (or absent) total
      falls back to the number of rows received. */
  function EffectiveTotal(total: int, count: nat): (t: int)
    ensures t != 0 || count == 0
    ensures total != 0 ==> t == total
    ensures total == 0 ==> t == count
  {
    if total != 0 then total else count
  }

  function TotalPages(total: int): int {
    CeilDiv(total, ITEMS_PER_PAGE)
  }

  /** The displayed range: rows `start` to `end` of `total`. */
  datatype Window = Window(start: int, end: int, total: int)

  function WindowOf(page: int, total: int): (w: Window)
    ensures w.total == total && w.end <= total
    ensures w.end - w.start + 1 <= ITEMS_PER_PAGE
    ensures page >= 1 ==> w.start >= 1
  {
    var start := (page - 1) * ITEMS_PER_PAGE + 1;
    Window(start, Min(start + ITEMS_PER_PAGE - 1, total), total)
  }

  /**
   * The pagination element of one table after `setupPagination`:
   * `armed` says the prev/next `onclick` handlers exist, `page` and
   * `totalPages` are the values those handlers closed over (and the
   * "page de totalPages" status), the two flags are the buttons'
   * `disabled` properties and `visible` its `display` style.
   */
  datatype Pager = Pager(armed: bool, page: int, totalPages: int,
                         prevDisabled: bool, nextDisabled: bool, visible: bool)

  /** The pagination element before any fetch has armed it. */
  const INITIAL_PAGER: Pager := Pager(false, 1, 0, true, true, false)

  function SetupPagination(page: int, total: int): (p: Pager)
    ensures p.armed && p.page == page
    ensures p.totalPages == TotalPages(total)
  {
    var totalPages := TotalPages(total);
    Pager(true, page, totalPages, page <= 1, page >= totalPages, totalPages > 1)
  }

  /** The page the prev handler moves the cursor to, if it moves it. */
  function PrevTarget(p: Pager): Option<int> {
    if p.armed && p.page > 1 then Some(p.page - 1) else None
  }

  /** The page the next handler moves the cursor to, if it moves it. */
  function NextTarget(p: Pager): Option<int> {
    if p.armed && p.page < p.totalPages then Some(p.page + 1) else None
  }

  /** For a non-negative total the ceiling is the usual `(t + 9) / 10`. */
  lemma TotalPagesOfNat(total: int)
    requires total >= 0
    ensures TotalPages(total) == (total + ITEMS_PER_PAGE - 1) / ITEMS_PER_PAGE
  {
    var k := TotalPages(total);
    var q := (total + ITEMS_PER_PAGE - 1) / ITEMS_PER_PAGE;
    assert q * ITEMS_PER_PAGE <= total + ITEMS_PER_PAGE - 1 < (q + 1) * ITEMS_PER_PAGE;
    assert (k - 1) * ITEMS_PER_PAGE < total <= k * ITEMS_PER_PAGE;
  }

  /** A page is in range exactly when its window is non-empty; the pages in
      range are full except the last, which ends at the total. */
  lemma WindowInRange(page: int, total: int)
    requires page >= 1 && total > 0
    ensures page <= TotalPages(total) <==> WindowOf(page, total).start <= total
    ensures page < TotalPages(total) ==> WindowOf(page, total).end - WindowOf(page, total).start + 1 == ITEMS_PER_PAGE
    ensures page == TotalPages(total) ==> WindowOf(page, total).end == total
  {
    var k := TotalPages(total);
    assert (k - 1) * ITEMS_PER_PAGE < total <= k * ITEMS_PER_PAGE;
    if page <= k {
      assert (page - 1) * ITEMS_PER_PAGE <= (k - 1) * ITEMS_PER_PAGE;
    } else {
      assert (page - 1) * ITEMS_PER_PAGE >= k * ITEMS_PER_PAGE;
    }
    if page < k {
      assert page * ITEMS_PER_PAGE <= (k - 1) * ITEMS_PER_PAGE;
    }
  }

  /** Consecutive windows tile the rows: a page ends right before the next begins. */
  lemma WindowsAdjacent(page: int, total: int)
    requires 1 <= page < TotalPages(total)
    ensures WindowOf(page, total).end + 1 == WindowOf(page + 1, total).start
  {
    var k := TotalPages(total);
    assert (k - 1) * ITEMS_PER_PAGE < total;
    assert page * ITEMS_PER_PAGE <= (k - 1) * ITEMS_PER_PAGE;
  }

  /** A handler moves the cursor exactly when its button is enabled. */
  lemma HandlersMatchButtons(page: int, total: int)
    ensures PrevTarget(SetupPagination(page, total)).Some? <==> !SetupPagination(page, total).prevDisabled
    ensures NextTarget(SetupPagination(page, total)).Some? <==> !SetupPagination(page, total).nextDisabled
  {
  }

  /** Navigation clamps: from a page in `[1, totalPages]` both handlers land in
      that range again, one page away. */
  lemma NavigationInRange(p: Pager)
    requires 1 <= p.page <= p.totalPages
    ensures PrevTarget(p).Some? ==> 1 <= PrevTarget(p).value <= p.totalPages && PrevTarget(p).value == p.page - 1
    ensures NextTarget(p).Some? ==> 1 <= NextTarget(p).value <= p.totalPages && NextTarget(p).value == p.page + 1
    ensures p.armed ==> (PrevTarget(p).None? <==> p.page == 1)
    ensures p.armed ==> (NextTarget(p).None? <==> p.page == p.totalPages)
  {
  }

  /** Hidden controls are never a trap: on an in-range page a hidden pager has
      both buttons disabled, and a visible one has at least one enabled. */
  lemma HiddenMeansNowhereToGo(page: int, total: int)
    requires 1 <= page <= TotalPages(total)
    ensures !SetupPagination(page, total).visible <==>
            (SetupPagination(page, total).prevDisabled && SetupPagination(page, total).nextDisabled)
  {
  }

  /** 25 rows on page 2: rows 11 to 20, three pages, both buttons enabled, shown. */
  lemma Example25OnPage2()
    ensures WindowOf(2, 25) == Window(11, 20, 25)
    ensures SetupPagination(2, 25) == Pager(true, 2, 3, false, false, true)
  {
    TotalPagesOfNat(25);
  }

  /** 21 rows, page 3 holds the single row 21; 20 rows fit in exactly two pages. */
  lemma ExampleLastPage()
    ensures WindowOf(3, 21) == Window(21, 21, 21) && TotalPages(21) == 3
    ensures TotalPages(20) == 2 && TotalPages(0) == 0
  {
    TotalPagesOfNat(21);
    TotalPagesOfNat(20);
    TotalPagesOfNat(0);
  }
}
