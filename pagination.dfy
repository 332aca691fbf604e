/**
 * The pagination controller shared, line for line, by the book-image, specification
 * and order screens: the sliding window of page buttons, the first/previous/next/last
 * moves and their disabled flags, "go to page", and row numbering. `Listing` holds the
 * list and page state such a screen keeps and applies its page fetches.
 */
module Pagination {
  import opened Common
  import opened Http
  import Json

  /** Rows requested per page (`useState(8)`). */
  const PageSize: nat := 8

  /** Page buttons shown at most (`maxVisiblePages`). */
  const MaxVisiblePages: nat := 5

  /** The inclusive range of page indices the window shows. */
  datatype Span = Span(first: int, last: int)

  /**
   * The window: start two pages before the current one, end four pages later or at the
   * last page, and when that leaves fewer than five buttons slide the start back.
   * Whatever `page` holds, the window lies inside the existing pages, has
   * `min(5, totalPages)` buttons and contains `page` exactly when `page` exists.
   */
  function Window(page: int, totalPages: int): (w: Span)
    requires totalPages >= 1
    ensures 0 <= w.first <= w.last <= totalPages - 1
    ensures w.last - w.first + 1 == Min(MaxVisiblePages, totalPages)
    ensures w.first <= page <= w.last <==> 0 <= page < totalPages
  {
    var start := Max(0, page - MaxVisiblePages / 2);
    var end := Min(totalPages - 1, start + MaxVisiblePages - 1);
    if end - start + 1 < MaxVisiblePages then Span(Max(0, end - MaxVisiblePages + 1), end)
    else Span(start, end)
  }

  /** Away from both ends, the current page sits in the middle of five buttons. */
  lemma WindowCentred(page: int, totalPages: int)
    requires 2 <= page && page + 2 <= totalPages - 1
    ensures Window(page, totalPages) == Span(page - 2, page + 2)
  {
  }

  /** Near the start, the window begins at page 0 and shows up to five pages. */
  lemma WindowAtStart(page: int, totalPages: int)
    requires totalPages >= 1 && page < 2
    ensures Window(page, totalPages) == Span(0, Min(MaxVisiblePages - 1, totalPages - 1))
  {
  }

  /** Near the end, or past it after a shrinking search, the window shows the last pages. */
  lemma WindowAtEnd(page: int, totalPages: int)
    requires totalPages >= 1 && page + 2 > totalPages - 1
    ensures Window(page, totalPages) == Span(Max(0, totalPages - MaxVisiblePages), totalPages - 1)
  {
  }

  /** The page buttons in display order, built by the render loop. */
  method PageButtons(page: int, totalPages: int) returns (pages: seq<int>)
    requires totalPages >= 1
    ensures |pages| == Min(MaxVisiblePages, totalPages)
    ensures forall k :: 0 <= k < |pages| ==> pages[k] == Window(page, totalPages).first + k
    ensures forall k :: 0 <= k < |pages| ==> 0 <= pages[k] < totalPages
    ensures page in pages <==> 0 <= page < totalPages
  {
    var startPage := Max(0, page - MaxVisiblePages / 2);
    var endPage := Min(totalPages - 1, startPage + MaxVisiblePages - 1);
    if endPage - startPage + 1 < MaxVisiblePages {
      startPage := Max(0, endPage - MaxVisiblePages + 1);
    }
    assert Span(startPage, endPage) == Window(page, totalPages);
    pages := [];
    var i := startPage;
    while i <= endPage
      invariant startPage <= i <= endPage + 1
      invariant |pages| == i - startPage
      invariant forall k :: 0 <= k < |pages| ==> pages[k] == startPage + k
    {
      pages := pages + [i];
      i := i + 1;
    }
    if page in pages {
      var k :| 0 <= k < |pages| && pages[k] == page;
    }
    if 0 <= page < totalPages {
      assert pages[page - startPage] == page;
    }
  }

  // ---------------------------------------------------------------------------
  // First / previous / next / last.

  function PrevPage(page: int): int { Max(0, page - 1) }

  function NextPage(page: int, totalPages: int): int { Min(totalPages - 1, page + 1) }

  function LastPage(totalPages: int): int { totalPages - 1 }

  /** "First" and "previous" are disabled on the first page. */
  predicate AtFirst(page: int) { page == 0 }

  /** "Next" and "last" are disabled on the last page. */
  predicate AtLast(page: int, totalPages: int) { page == totalPages - 1 }

  /**
   * Every move lands on an existing page, and a button is disabled exactly when
   * pressing it would not change the page.
   */
  lemma MovesMeaning(page: int, totalPages: int)
    requires totalPages >= 1 && 0 <= page < totalPages
    ensures 0 <= PrevPage(page) <= page && PrevPage(page) < totalPages
    ensures page <= NextPage(page, totalPages) < totalPages
    ensures 0 <= LastPage(totalPages) < totalPages
    ensures AtFirst(page) <==> PrevPage(page) == page
    ensures AtLast(page, totalPages) <==> NextPage(page, totalPages) == page
    ensures !AtFirst(page) ==> PrevPage(page) == page - 1 && NextPage(PrevPage(page), totalPages) == page
    ensures !AtLast(page, totalPages) ==> NextPage(page, totalPages) == page + 1 && PrevPage(NextPage(page, totalPages)) == page
  {
  }

  /**
   * With a single page, only page 0 is shown and "next" and "last" go to it from any
   * page; the move buttons are all disabled exactly when the current page is 0.
   */
  lemma SinglePageAllDisabled(page: int)
    requires page >= 0
    ensures Window(page, 1) == Span(0, 0)
    ensures NextPage(page, 1) == 0 && LastPage(1) == 0
    ensures AtFirst(page) && AtLast(page, 1) <==> page == 0
    ensures page == 0 ==> PrevPage(page) == 0
  {
  }

  /**
   * A page left beyond the end (the list shrank under a new keyword while the page
   * stayed): every move button is enabled, the window does not contain the page, and
   * "previous" from two or more pages past the end lands on a page that does not exist.
   */
  lemma StalePageMovesEnabled(page: int, totalPages: int)
    requires totalPages >= 1 && page >= totalPages
    ensures !AtFirst(page) && !AtLast(page, totalPages)
    ensures !(Window(page, totalPages).first <= page <= Window(page, totalPages).last)
    ensures PrevPage(page) == page - 1
    ensures page > totalPages ==> PrevPage(page) >= totalPages
    ensures NextPage(page, totalPages) == LastPage(totalPages) == totalPages - 1
  {
  }

  // ---------------------------------------------------------------------------
  // Go to page.

  /** `parseInt(text) || 1`: a non-number (`None`) or zero becomes 1; anything else is kept. */
  function PageInputOf(parsed: Option<int>): (n: int)
    ensures n != 0
    ensures parsed.Some? && parsed.value != 0 ==> n == parsed.value
    ensures parsed.None? || parsed.value == 0 ==> n == 1
  {
    if parsed.None? || parsed.value == 0 then 1 else parsed.value
  }

  /** `Math.max(1, Math.min(totalPages, input))`: the one-based page "go" jumps to. */
  function GoToTarget(totalPages: int, input: int): (n: int)
    ensures totalPages >= 1 ==> 1 <= n <= totalPages
    ensures 1 <= input <= totalPages ==> n == input
    ensures input > totalPages >= 1 ==> n == totalPages
    ensures input < 1 ==> n == 1
  {
    Max(1, Min(totalPages, input))
  }

  /** Pressing "go" again with the input it wrote back changes nothing. */
  lemma GoToIdempotent(totalPages: int, input: int)
    requires totalPages >= 1
    ensures GoToTarget(totalPages, GoToTarget(totalPages, input)) == GoToTarget(totalPages, input)
  {
  }

  // ---------------------------------------------------------------------------
  // Row numbering.

  /** The number shown in the "STT" column: `page * pageSize + index + 1`. */
  function RowNumber(page: int, index: int): int
  {
    page * PageSize + index + 1
  }

  /** The page and in-page index a row number belongs to. */
  function RowPosition(n: int): (int, int)
  {
    ((n - 1) / PageSize, (n - 1) % PageSize)
  }

  /**
   * On a full page the row numbers are `page*8+1 .. page*8+8`, and the number alone
   * determines the page and the row, so numbers on distinct pages never coincide.
   */
  lemma RowNumberRoundTrip(page: int, index: int)
    requires 0 <= index < PageSize
    ensures page * PageSize + 1 <= RowNumber(page, index) <= page * PageSize + PageSize
    ensures RowPosition(RowNumber(page, index)) == (page, index)
  {
  }

  lemma RowNumbersDistinct(p1: int, i1: int, p2: int, i2: int)
    requires 0 <= i1 < PageSize && 0 <= i2 < PageSize
    requires (p1, i1) != (p2, i2)
    ensures RowNumber(p1, i1) != RowNumber(p2, i2)
  {
    RowNumberRoundTrip(p1, i1);
    RowNumberRoundTrip(p2, i2);
  }

  /** Within a page the numbers increase by one per row. */
  lemma RowNumbersIncrease(page: int, i: int, j: int)
    requires i < j
    ensures RowNumber(page, i) < RowNumber(page, j)
    ensures RowNumber(page, i + 1) == RowNumber(page, i) + 1
  {
  }

  /** Every row of a page is numbered below every row of the next page. */
  lemma RowNumbersAcrossPages(page: int, i: int, j: int)
    requires 0 <= i < PageSize && 0 <= j
    ensures RowNumber(page, i) < RowNumber(page + 1, j)
  {
  }

  // ---------------------------------------------------------------------------
  // The list and page state of a paginated resource screen.

  /** `/{resource}/getallbypaging?page=…&pageSize=8&keyword=…`; the keyword is not escaped. */
  function FetchUrl(resource: string, page: nat, keyword: string): string
  {
    "/" + resource + "/getallbypaging?page=" + Json.IntText(page)
    + "&pageSize=" + Json.IntText(PageSize) + "&keyword=" + keyword
  }

  class Listing<T> {
    /** The API resource name: "BookImage", "BookSpecification" or "Order". */
    const resource: string
    var page: nat
    var totalPages: int
    var pageInput: int
    var items: seq<T>
    /** The search term after the debounce delay. */
    var keyword: string

    constructor (resource: string)
      ensures this.resource == resource
      ensures page == 0 && totalPages == 0 && pageInput == 0 && items == [] && keyword == ""
    {
      this.resource := resource;
      page, totalPages, pageInput := 0, 0, 0;
      items, keyword := [], "";
    }

    /**
     * Fetch the current page: a well-formed reply replaces the list and the page
     * count together; anything else leaves both as they were and raises a notice.
     */
    method Fetch(reply: PageReply<T>) returns (url: string, notice: Option<Notice>)
      modifies this`items, this`totalPages
      ensures url == FetchUrl(resource, page, keyword)
      ensures reply.PageBody? ==> items == reply.items && totalPages == reply.totalPages && notice == None
      ensures reply.PageMalformed? ==> unchanged(this) && notice == Some(InvalidData)
      ensures reply.PageRejected? ==> unchanged(this) && notice == Some(LoadFailed)
    {
      url := FetchUrl(resource, page, keyword);
      match reply
      case PageBody(rows, count) =>
        items, totalPages := rows, count;
        notice := None;
      case PageMalformed =>
        notice := Some(InvalidData);
      case PageRejected =>
        notice := Some(LoadFailed);
    }

    /** The debounced search term settles. */
    method SetKeyword(term: string)
      modifies this`keyword
      ensures keyword == term
    {
      keyword := term;
    }

    // The handlers below belong to controls that are rendered only when totalPages >= 1.

    method First()
      requires totalPages >= 1
      modifies this`page
      ensures page == 0
    {
      page := 0;
    }

    method Prev()
      requires totalPages >= 1
      modifies this`page
      ensures page == PrevPage(old(page))
      ensures old(page) < totalPages ==> page < totalPages
    {
      page := Max(0, page - 1);
    }

    method Next()
      requires totalPages >= 1
      modifies this`page
      ensures page == NextPage(old(page), totalPages)
      ensures page < totalPages
    {
      page := Min(totalPages - 1, page + 1);
    }

    method Last()
      requires totalPages >= 1
      modifies this`page
      ensures page == LastPage(totalPages) && page < totalPages
    {
      page := totalPages - 1;
    }

    /** A click on one of the window's page buttons. */
    method SelectPage(i: int)
      requires totalPages >= 1
      requires Window(page, totalPages).first <= i <= Window(page, totalPages).last
      modifies this`page
      ensures page == i && page < totalPages
    {
      page := i;
    }

    /** The "go to page" input changes; `parsed` is what `parseInt` made of its text. */
    method SetPageInput(parsed: Option<int>)
      modifies this`pageInput
      ensures pageInput == PageInputOf(parsed)
    {
      pageInput := PageInputOf(parsed);
    }

    /** "Go": clamp the input to an existing page, jump there and write the clamped value back. */
    method GoToPage()
      requires totalPages >= 1
      modifies this`page, this`pageInput
      ensures pageInput == GoToTarget(totalPages, old(pageInput))
      ensures page == pageInput - 1 && page < totalPages
    {
      var newPage := Max(1, Min(totalPages, pageInput));
      page := newPage - 1;
      pageInput := newPage;
    }
  }
}
