/**
 * The pagination controls: Previous and Next buttons that ask for the
 * neighbouring page when there is one, shown only when there is more than
 * one page.
 */
module PaginationControls {
  import opened Common

  /** The controls are rendered only when there are at least two pages. */
  predicate Visible(totalPages: int) {
    totalPages > 1
  }

  /** The `disabled` attribute of Previous. */
  predicate PreviousDisabled(currentPage: int) {
    currentPage <= 1
  }

  /** The `disabled` attribute of Next. */
  predicate NextDisabled(currentPage: int, totalPages: int) {
    currentPage >= totalPages
  }

  /** The page Previous asks for, if any. */
  function HandlePrevious(currentPage: int): (p: Option<int>)
    ensures p.Some? <==> !PreviousDisabled(currentPage)
    ensures p.Some? ==> p.value >= 1
  {
    if currentPage > 1 then Some(currentPage - 1) else None
  }

  /** The page Next asks for, if any. */
  function HandleNext(currentPage: int, totalPages: int): (p: Option<int>)
    ensures p.Some? <==> !NextDisabled(currentPage, totalPages)
    ensures p.Some? ==> p.value <= totalPages
  {
    if currentPage < totalPages then Some(currentPage + 1) else None
  }

  /** Previous asks for the page before exactly when there is one. */
  lemma PreviousGuard(currentPage: int)
    ensures HandlePrevious(currentPage).Some? <==> currentPage > 1
    ensures HandlePrevious(currentPage).Some? ==> HandlePrevious(currentPage).value == currentPage - 1
  {
  }

  /** Next asks for the page after exactly when there is one. */
  lemma NextGuard(currentPage: int, totalPages: int)
    ensures HandleNext(currentPage, totalPages).Some? <==> currentPage < totalPages
    ensures HandleNext(currentPage, totalPages).Some? ==> HandleNext(currentPage, totalPages).value == currentPage + 1
  {
  }

  /** A button is disabled exactly when its handler would ask for nothing. */
  lemma DisabledIffNoRequest(currentPage: int, totalPages: int)
    ensures PreviousDisabled(currentPage) <==> HandlePrevious(currentPage).None?
    ensures NextDisabled(currentPage, totalPages) <==> HandleNext(currentPage, totalPages).None?
  {
  }

  /** From a page in range, every page asked for is in range too. */
  lemma RequestedPageInRange(currentPage: int, totalPages: int)
    requires 1 <= currentPage <= totalPages
    ensures HandlePrevious(currentPage).Some? ==> 1 <= HandlePrevious(currentPage).value <= totalPages
    ensures HandleNext(currentPage, totalPages).Some? ==> 1 <= HandleNext(currentPage, totalPages).value <= totalPages
  {
  }

  /** When the controls are shown, at least one of the buttons is enabled. */
  lemma VisibleOffersAMove(currentPage: int, totalPages: int)
    requires Visible(totalPages)
    ensures !PreviousDisabled(currentPage) || !NextDisabled(currentPage, totalPages)
  {
  }

  /** Next then Previous comes back to the starting page. */
  lemma NextThenPreviousReturns(currentPage: int, totalPages: int)
    requires currentPage >= 1
    requires HandleNext(currentPage, totalPages).Some?
    ensures HandlePrevious(HandleNext(currentPage, totalPages).value) == Some(currentPage)
  {
  }
}
