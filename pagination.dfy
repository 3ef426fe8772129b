/** The pagination bar (src/components/PaginationBar.tsx): previous / next
    buttons and a page-number box, each of which may ask the view for a page.
    Page numbers are JavaScript numbers that hold integers here. */
module Pagination {
  import opened Models
  import opened Text

  /** `handlePrevClick`: the page it asks for, if any. */
  function PrevClick(currentPage: int): (r: Option<int>)
    ensures r.Some? <==> currentPage > 1
    ensures r.Some? ==> r.value == currentPage - 1 && r.value >= 1
  {
    if currentPage > 1 then Some(currentPage - 1) else None
  }

  /** `handleNextClick`: the page it asks for, if any. */
  function NextClick(currentPage: int, totalPages: int): (r: Option<int>)
    ensures r.Some? <==> currentPage < totalPages
    ensures r.Some? ==> r.value == currentPage + 1 && r.value <= totalPages
  {
    if currentPage < totalPages then Some(currentPage + 1) else None
  }

  /** The `disabled` conditions of the two buttons (lines 49 and 58). */
  predicate PrevDisabled(currentPage: int) { currentPage <= 1 }

  predicate NextDisabled(currentPage: int, totalPages: int) { currentPage >= totalPages }

  /** A button is disabled exactly when clicking it would ask for nothing,
      and an enabled one asks for the neighbouring page. */
  lemma ButtonsMatchGuards(currentPage: int, totalPages: int)
    ensures PrevDisabled(currentPage) <==> PrevClick(currentPage).None?
    ensures !PrevDisabled(currentPage) ==> PrevClick(currentPage) == Some(currentPage - 1)
    ensures NextDisabled(currentPage, totalPages) <==> NextClick(currentPage, totalPages).None?
    ensures !NextDisabled(currentPage, totalPages) ==> NextClick(currentPage, totalPages) == Some(currentPage + 1)
  {
  }

  /** What submitting the page box asks for: the number `parseInt` reads
      from the text, when it lies in `[1, totalPages]`. */
  function SubmitTarget(pageInput: string, totalPages: int): (r: Option<int>)
    ensures r.Some? <==> ParseInt(pageInput).Some? && 1 <= ParseInt(pageInput).value <= totalPages
    ensures r.Some? ==> r.value == ParseInt(pageInput).value
  {
    match ParseInt(pageInput)
    case Some(page) => if 1 <= page <= totalPages then Some(page) else None
    case None => None
  }

  /** Every page the bar asks for lies in `[1, totalPages]`, provided the
      current page is at most one past the last; with no pages at all,
      nothing is ever asked for. */
  lemma EmittedPagesInRange(currentPage: int, totalPages: int, pageInput: string)
    requires 0 <= currentPage <= totalPages + 1
    ensures PrevClick(currentPage).Some? ==> 1 <= PrevClick(currentPage).value <= totalPages
    ensures NextClick(currentPage, totalPages).Some? ==> 1 <= NextClick(currentPage, totalPages).value <= totalPages
    ensures SubmitTarget(pageInput, totalPages).Some? ==> 1 <= SubmitTarget(pageInput, totalPages).value <= totalPages
    ensures totalPages <= 0 ==> SubmitTarget(pageInput, totalPages).None? && NextClick(currentPage, totalPages).None?
  {
  }

  /** Without the bound on the current page, "previous" can ask for a page
      past the last one: on page 5 of 2 it asks for page 4. */
  lemma PrevCanLeaveRange()
    ensures PrevClick(5) == Some(4) && 4 > 2
  {
  }

  /** PaginationBar: the text of the page box is component state that
      starts as the current page. */
  class PaginationBar {
    var pageInput: string

    /** `useState(currentPage.toString())`. */
    constructor (currentPage: int)
      ensures pageInput == IntToString(currentPage)
    {
      pageInput := IntToString(currentPage);
    }

    /** Typing into the box. */
    method SetPageInput(text: string)
      modifies this
      ensures pageInput == text
    {
      pageInput := text;
    }

    /** `handlePageSubmit`: asks for the typed page when it is valid;
        otherwise asks for nothing and puts the current page back in the box. */
    method HandlePageSubmit(currentPage: int, totalPages: int) returns (emitted: Option<int>)
      modifies this
      ensures emitted == SubmitTarget(old(pageInput), totalPages)
      ensures emitted.Some? ==> pageInput == old(pageInput)
      ensures emitted.None? ==> pageInput == IntToString(currentPage)
    {
      var parsed := ParseInt(pageInput);
      if parsed.Some? && parsed.value >= 1 && parsed.value <= totalPages {
        emitted := Some(parsed.value);
      } else {
        emitted := None;
        pageInput := IntToString(currentPage);
      }
    }
  }

  /** After a rejected submit the box shows the current page, so submitting
      again asks for exactly the current page when that page is valid, and
      for nothing otherwise. */
  lemma ResubmitAfterReset(currentPage: int, totalPages: int)
    ensures SubmitTarget(IntToString(currentPage), totalPages) ==
      if 1 <= currentPage <= totalPages then Some(currentPage) else None
  {
    ParseIntRoundTrip(currentPage);
  }
}
