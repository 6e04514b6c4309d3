/**
 * The pagination and row-expansion state of the attempts table
 * (src/components/WebhookAttemptsTable.tsx). Rendering is not modelled; the
 * component's state setters become the methods of `AttemptsTable`, and what
 * the render derives from that state (the page slice, the "Showing X-Y of N"
 * text, the page-number buttons) becomes functions.
 */
module WebhookAttemptsTable {
  import MockData

  const ItemsPerPage: int := 10

  function Min(a: int, b: int): int {
    if a <= b then a else b
  }

  // ---------------------------------------------------------------------------
  // Page arithmetic
  // ---------------------------------------------------------------------------

  /** `Math.ceil(n / itemsPerPage)`: the fewest pages that hold `n` rows. */
  function TotalPages(n: nat): (pages: nat)
    ensures n <= pages * ItemsPerPage
    ensures pages > 0 ==> (pages - 1) * ItemsPerPage < n
    ensures pages == 0 <==> n == 0
  {
    (n + ItemsPerPage - 1) / ItemsPerPage
  }

  function StartIndex(page: int): int {
    (page - 1) * ItemsPerPage
  }

  function EndIndex(page: int): int {
    StartIndex(page) + ItemsPerPage
  }

  /**
   * `attemptsData.slice(startIndex, endIndex)` for a page numbered from 1
   * (the current page never drops below 1). `slice` clamps both bounds to the
   * length, so a page past the end is empty.
   */
  function PageRows<T>(rows: seq<T>, page: int): (r: seq<T>)
    requires page >= 1
    ensures |r| <= ItemsPerPage
    ensures StartIndex(page) < |rows| ==> |r| == Min(EndIndex(page), |rows|) - StartIndex(page)
    ensures StartIndex(page) >= |rows| ==> r == []
    ensures r != [] ==> StartIndex(page) + |r| <= |rows|
    ensures forall k :: 0 <= k < |r| ==> r[k] == rows[StartIndex(page) + k]
  {
    var start := StartIndex(page);
    if start >= |rows| then [] else rows[start..Min(EndIndex(page), |rows|)]
  }

  /** Every page from 1 to TotalPages has rows; the pages after it have none. */
  lemma PageRowsNonEmpty<T>(rows: seq<T>, page: int)
    requires page >= 1
    ensures |PageRows(rows, page)| > 0 <==> page <= TotalPages(|rows|)
  {
  }

  /** Every row is shown on exactly one page: row `i` is row `i % 10` of page `i / 10 + 1`. */
  lemma PageOfRow<T>(rows: seq<T>, i: int)
    requires 0 <= i < |rows|
    ensures 1 <= i / ItemsPerPage + 1 <= TotalPages(|rows|)
    ensures i % ItemsPerPage < |PageRows(rows, i / ItemsPerPage + 1)|
    ensures PageRows(rows, i / ItemsPerPage + 1)[i % ItemsPerPage] == rows[i]
    ensures forall page :: 1 <= page && page != i / ItemsPerPage + 1 ==>
      !(StartIndex(page) <= i < StartIndex(page) + |PageRows(rows, page)|)
  {
    var page := i / ItemsPerPage + 1;
    assert StartIndex(page) + i % ItemsPerPage == i;
  }

  /**
   * The "Showing {startIndex + 1}-{min(endIndex, n)} of {n}" numbers: the
   * one-based positions of the first and last row of the page.
   */
  function ShownRange(page: int, n: nat): (r: (int, int))
    ensures page >= 1 && StartIndex(page) < n ==>
      1 <= r.0 <= r.1 <= n && r.1 - r.0 < ItemsPerPage
  {
    (StartIndex(page) + 1, Min(EndIndex(page), n))
  }

  /** On an existing page the range is non-empty, within 1..n, and counts the page's rows. */
  lemma ShownRangeMatchesPage<T>(rows: seq<T>, page: int)
    requires 1 <= page <= TotalPages(|rows|)
    ensures 1 <= ShownRange(page, |rows|).0 <= ShownRange(page, |rows|).1 <= |rows|
    ensures ShownRange(page, |rows|).1 - ShownRange(page, |rows|).0 + 1 == |PageRows(rows, page)|
    ensures |rows| > 0 && rows[ShownRange(page, |rows|).0 - 1] == PageRows(rows, page)[0]
  {
  }

  /** The `i`-th page-number button. */
  function PageNumberAt(totalPages: nat, currentPage: int, i: int): int {
    if totalPages <= 5 then i + 1
    else if currentPage <= 3 then i + 1
    else if currentPage >= totalPages - 2 then totalPages - 4 + i
    else currentPage - 2 + i
  }

  /**
   * The page-number buttons: `min(5, totalPages)` consecutive page numbers,
   * all of them pages that exist, with the current page among them.
   */
  function PageWindow(totalPages: nat, currentPage: int): (w: seq<int>)
    ensures |w| == Min(5, totalPages)
    ensures forall i :: 0 <= i < |w| ==> w[i] == w[0] + i
    ensures forall i :: 0 <= i < |w| ==> 1 <= w[i] <= totalPages
    ensures 1 <= currentPage <= totalPages ==> currentPage in w
  {
    var w := seq(Min(5, totalPages), i => PageNumberAt(totalPages, currentPage, i));
    assert 1 <= currentPage <= totalPages ==> w[currentPage - w[0]] == currentPage;
    w
  }

  /** Consecutive numbers are strictly increasing, so no page appears twice. */
  lemma PageWindowIncreasing(totalPages: nat, currentPage: int, i: int, j: int)
    requires 0 <= i < j < |PageWindow(totalPages, currentPage)|
    ensures PageWindow(totalPages, currentPage)[i] < PageWindow(totalPages, currentPage)[j]
  {
  }

  // ---------------------------------------------------------------------------
  // Expanded rows
  // ---------------------------------------------------------------------------

  /** toggleExpand's new set: `id` removed when present, added when absent. */
  function Toggled(expanded: set<string>, id: string): (r: set<string>)
    ensures id in r <==> id !in expanded
    ensures forall other :: other != id ==> (other in r <==> other in expanded)
  {
    if id in expanded then expanded - {id} else expanded + {id}
  }

  /** Toggling the same row twice restores the set. */
  lemma ToggleTwice(expanded: set<string>, id: string)
    ensures Toggled(Toggled(expanded, id), id) == expanded
  {
  }

  // ---------------------------------------------------------------------------
  // The component's state
  // ---------------------------------------------------------------------------

  class AttemptsTable {
    /** The `attemptsData` prop the component was last rendered with. */
    var rows: seq<MockData.Summary>
    var currentPage: int
    var expanded: set<string>

    /** The page is at least 1, and a page that exists whenever there are rows. */
    ghost predicate Valid()
      reads this
    {
      1 <= currentPage && (TotalPages(|rows|) > 0 ==> currentPage <= TotalPages(|rows|))
    }

    /** The first render: page 1, nothing expanded. */
    constructor (attemptsData: seq<MockData.Summary>)
      ensures Valid()
      ensures rows == attemptsData && currentPage == 1 && expanded == {}
    {
      rows := attemptsData;
      currentPage := 1;
      expanded := {};
    }

    /**
     * A render with new data: when the current page no longer exists and
     * some page does, back to page 1. The expanded rows are kept.
     */
    method ReceiveData(attemptsData: seq<MockData.Summary>)
      requires Valid()
      modifies this
      ensures Valid()
      ensures rows == attemptsData && expanded == old(expanded)
      ensures currentPage ==
        if old(currentPage) > TotalPages(|attemptsData|) > 0 then 1 else old(currentPage)
    {
      rows := attemptsData;
      var totalPages := TotalPages(|rows|);
      if currentPage > totalPages && totalPages > 0 {
        currentPage := 1;
      }
    }

    method ToggleExpand(messageId: string)
      requires Valid()
      modifies this`expanded
      ensures Valid()
      ensures expanded == Toggled(old(expanded), messageId)
    {
      var newSet := expanded;
      if messageId in newSet {
        newSet := newSet - {messageId};
      } else {
        newSet := newSet + {messageId};
      }
      expanded := newSet;
    }

    /** A page-number button, or a step from Previous/Next: go there and collapse every row. */
    method HandlePageChange(page: int)
      requires Valid() && 1 <= page <= TotalPages(|rows|)
      modifies this`currentPage, this`expanded
      ensures Valid()
      ensures currentPage == page && expanded == {}
    {
      currentPage := page;
      expanded := {};
    }

    /** The Previous button (shown only when there is more than one page). */
    method HandlePrevious()
      requires Valid() && TotalPages(|rows|) > 1
      modifies this`currentPage, this`expanded
      ensures Valid()
      ensures old(currentPage) > 1 ==> currentPage == old(currentPage) - 1 && expanded == {}
      ensures old(currentPage) <= 1 ==> currentPage == old(currentPage) && expanded == old(expanded)
    {
      if currentPage > 1 {
        HandlePageChange(currentPage - 1);
      }
    }

    /** The Next button (shown only when there is more than one page). */
    method HandleNext()
      requires Valid() && TotalPages(|rows|) > 1
      modifies this`currentPage, this`expanded
      ensures Valid()
      ensures old(currentPage) < TotalPages(|rows|) ==>
        currentPage == old(currentPage) + 1 && expanded == {}
      ensures old(currentPage) >= TotalPages(|rows|) ==>
        currentPage == old(currentPage) && expanded == old(expanded)
    {
      if currentPage < TotalPages(|rows|) {
        HandlePageChange(currentPage + 1);
      }
    }

    /** `paginatedData`: the rows of the current page. */
    function PaginatedData(): (r: seq<MockData.Summary>)
      reads this
      requires Valid()
      ensures |r| <= ItemsPerPage
      ensures |rows| > 0 ==> |r| > 0
      ensures r != [] ==> StartIndex(currentPage) + |r| <= |rows|
      ensures forall k :: 0 <= k < |r| ==> r[k] == rows[StartIndex(currentPage) + k]
    {
      PageRows(rows, currentPage)
    }

    /** The page-number buttons of the current render. */
    function PageNumbers(): (w: seq<int>)
      reads this
      requires Valid()
      ensures |rows| > 0 ==> currentPage in w
      ensures forall p :: p in w ==> 1 <= p <= TotalPages(|rows|)
    {
      PageWindow(TotalPages(|rows|), currentPage)
    }
  }
}
