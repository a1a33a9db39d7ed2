/**
 * The track list page: the view state (the page of tracks shown, the
 * pagination position, the filters and sort, the loading and error flags,
 * and which form is open) and the handlers that update it. Each request to
 * the server is one atomic step whose result is passed in.
 */
module TrackListPage {
  import opened Common
  import opened TrackTypes
  import opened TrackQuery
  import opened QueryParams
  import PaginationControls

  /** The page size the list always asks for. */
  const PageSize := 10

  const FetchFailedMessage := "Failed to fetch tracks"
  const SaveFailedMessage := "Failed to save track"
  const DeleteFailedMessage := "Failed to delete track"

  /** What a list request brought back: the records and the page count, or an error (with its message when it has one). */
  datatype FetchResult = Fetched(data: seq<ClientTrack>, totalPages: nat) | FetchFailed(message: Option<string>)

  /** What a save or delete request brought back. */
  datatype CallResult = Succeeded | CallFailed(message: Option<string>)

  /** The request a save makes: an update of the record with that id, or a creation. */
  datatype SaveCall = UpdateCall(id: TrackId, data: ClientTrack) | AddCall(data: ClientTrack)

  /** All the view state at once. */
  datatype ViewState = ViewState(
    tracks: seq<ClientTrack>,
    editingTrack: Option<ClientTrack>,
    isLoading: bool,
    error: Option<string>,
    showAddForm: bool,
    currentPage: int,
    totalPages: int,
    filters: Filters,
    sortBy: SortByField,
    sortOrder: SortOrder)

  /** The list query for the current position, filters and sort. */
  function PageQuery(currentPage: int, filters: Filters, sortBy: SortByField, sortOrder: SortOrder): (q: QueryOptions)
    ensures q.page == Some(currentPage) && q.limit == Some(PageSize)
    ensures q.title == filters.title && q.artist == filters.artist && q.album == filters.album
    ensures q.sortBy == Some(sortBy) && q.sortOrder == Some(sortOrder)
  {
    QueryOptions(Some(currentPage), Some(PageSize), filters.title, filters.artist, filters.album, Some(sortBy), Some(sortOrder))
  }

  /**
   * What the server makes of that query: the current page (when it is at
   * least 1), ten per page, the non-empty filters, and the chosen sort.
   */
  lemma PageQueryReachesServer(currentPage: int, filters: Filters, sortBy: SortByField, sortOrder: SortOrder)
    requires currentPage >= 1
    ensures var r := ReceivedRequest(Expected(PageQuery(currentPage, filters, sortBy, sortOrder), 7));
      && PageOf(r) == currentPage
      && LimitOf(r) == PageSize
      && BuildFilter(r) == Filter(KeepTruthy(filters.title), KeepTruthy(filters.artist), KeepTruthy(filters.album))
      && SpecOf(r) == SortSpec(OnField(sortBy), sortOrder == Asc)
  {
    var o := PageQuery(currentPage, filters, sortBy, sortOrder);
    ExpectedEncodes(o, 7);
    RoundTrip(o, Expected(o, 7));
  }

  /** The server's envelope as the client receives it: each record as its client copy, and the page count. */
  function ClientPage(env: PaginatedTracks): (res: FetchResult)
    ensures res.Fetched? && res.totalPages == env.pagination.totalPages
    ensures |res.data| == |env.data|
    ensures forall i :: 0 <= i < |env.data| ==> res.data[i] == ToClient(env.data[i])
  {
    Fetched(seq(|env.data|, i requires 0 <= i < |env.data| => ToClient(env.data[i])), env.pagination.totalPages)
  }

  /**
   * What a fetch shows comes from the server's page: at most a page size of
   * tracks, each the client copy of a stored record that matches the filter.
   */
  lemma FetchShowsServerPage(store: seq<Track>, r: ListRequest)
    requires Admissible(r)
    ensures var res := ClientPage(ListTracks(store, r));
      && |res.data| <= LimitOf(r)
      && forall i :: 0 <= i < |res.data| ==>
           exists t :: t in store && Matches(t, BuildFilter(r)) && res.data[i] == ToClient(t)
  {
    var env := ListTracks(store, r);
    var res := ClientPage(env);
    ListedTracksMatch(store, r);
    forall i | 0 <= i < |res.data|
      ensures exists t :: t in store && Matches(t, BuildFilter(r)) && res.data[i] == ToClient(t)
    {
      assert env.data[i] in env.data;
    }
  }

  /** The page shown after a fetch: pulled back to the last page, or to 1 when there are none. */
  function ClampAfterFetch(currentPage: int, totalPages: int): int {
    if currentPage > totalPages && totalPages > 0 then totalPages
    else if totalPages == 0 then 1
    else currentPage
  }

  /** Starting from any page of at least 1, the page after a fetch is between 1 and the page count (or 1). */
  lemma ClampInRange(currentPage: int, totalPages: nat)
    requires currentPage >= 1
    ensures 1 <= ClampAfterFetch(currentPage, totalPages)
    ensures ClampAfterFetch(currentPage, totalPages) <= if totalPages == 0 then 1 else totalPages
    ensures 1 <= currentPage <= totalPages ==> ClampAfterFetch(currentPage, totalPages) == currentPage
  {
  }

  /** `err instanceof Error ? err.message : fallback`. */
  function ErrorText(message: Option<string>, fallback: string): string {
    if message.Some? then message.value else fallback
  }

  /** A save updates exactly when the submitted data carries a non-empty `_id`. */
  function Dispatch(trackData: ClientTrack): (call: SaveCall)
    ensures call.UpdateCall? <==> Truthy(trackData.id)
    ensures call.UpdateCall? ==> Some(call.id) == trackData.id
    ensures call.data == trackData
  {
    if Truthy(trackData.id) then UpdateCall(trackData.id.value, trackData) else AddCall(trackData)
  }

  /** At most one form is open: the add form is shown only while no track is being edited. */
  predicate AddFormShown(s: ViewState) {
    s.showAddForm && s.editingTrack.None?
  }

  predicate EditFormShown(s: ViewState) {
    s.editingTrack.Some?
  }

  lemma AtMostOneForm(s: ViewState)
    ensures !(AddFormShown(s) && EditFormShown(s))
  {
  }

  class TrackListPage {
    var tracks: seq<ClientTrack>
    var editingTrack: Option<ClientTrack>
    var isLoading: bool
    var error: Option<string>
    var showAddForm: bool
    var currentPage: int
    var totalPages: int
    var filters: Filters
    var sortBy: SortByField
    var sortOrder: SortOrder

    function State(): ViewState
      reads this
    {
      ViewState(tracks, editingTrack, isLoading, error, showAddForm, currentPage, totalPages, filters, sortBy, sortOrder)
    }

    /** The initial view: page 1 of 1, no filters, newest first. */
    constructor ()
      ensures State() == ViewState([], None, false, None, false, 1, 1, NoFilters, CreatedAt, Desc)
    {
      tracks := [];
      editingTrack := None;
      isLoading := false;
      error := None;
      showAddForm := false;
      currentPage := 1;
      totalPages := 1;
      filters := NoFilters;
      sortBy := CreatedAt;
      sortOrder := Desc;
    }

    /** The start of a fetch: loading, no error, and the query for the current view. */
    method BeginFetch() returns (q: QueryOptions)
      modifies this
      ensures State() == old(State()).(isLoading := true, error := None)
      ensures q == PageQuery(currentPage, filters, sortBy, sortOrder)
    {
      isLoading := true;
      error := None;
      q := PageQuery(currentPage, filters, sortBy, sortOrder);
    }

    /**
     * The end of a fetch. On success the records and page count are taken
     * and the page is pulled back into range; on failure only the error
     * is set. Loading is over either way.
     */
    method CompleteFetch(result: FetchResult)
      modifies this
      ensures result.Fetched? ==>
        State() == old(State()).(
          tracks := result.data,
          totalPages := result.totalPages,
          currentPage := ClampAfterFetch(old(currentPage), result.totalPages),
          isLoading := false)
      ensures result.Fetched? && old(currentPage) >= 1 ==>
        1 <= currentPage <= if totalPages == 0 then 1 else totalPages
      ensures result.FetchFailed? ==>
        State() == old(State()).(error := Some(ErrorText(result.message, FetchFailedMessage)), isLoading := false)
    {
      if result.Fetched? {
        var fetchedFrom := currentPage;
        tracks := result.data;
        totalPages := result.totalPages;
        if fetchedFrom > result.totalPages && result.totalPages > 0 {
          currentPage := result.totalPages;
        } else if result.totalPages == 0 {
          currentPage := 1;
        }
        if fetchedFrom >= 1 {
          ClampInRange(fetchedFrom, result.totalPages);
        }
      } else {
        error := Some(ErrorText(result.message, FetchFailedMessage));
      }
      isLoading := false;
    }

    /** Moving to another page changes the page and nothing else. */
    method HandlePageChange(newPage: int)
      modifies this
      ensures State() == old(State()).(currentPage := newPage)
    {
      currentPage := newPage;
    }

    /** New filters go back to page 1. */
    method HandleFilterChange(newFilters: Filters)
      modifies this
      ensures State() == old(State()).(filters := newFilters, currentPage := 1)
    {
      filters := newFilters;
      currentPage := 1;
    }

    /** A new sort goes back to page 1. */
    method HandleSortChange(newSortBy: SortByField, newSortOrder: SortOrder)
      modifies this
      ensures State() == old(State()).(sortBy := newSortBy, sortOrder := newSortOrder, currentPage := 1)
    {
      sortBy := newSortBy;
      sortOrder := newSortOrder;
      currentPage := 1;
    }

    /** Editing a track opens the edit form and hides the add form. */
    method HandleEdit(track: ClientTrack)
      modifies this
      ensures State() == old(State()).(editingTrack := Some(track), showAddForm := false)
      ensures EditFormShown(State()) && !AddFormShown(State())
    {
      editingTrack := Some(track);
      showAddForm := false;
    }

    /** The add button toggles the add form and drops any edit in progress. */
    method ToggleAddForm()
      modifies this
      ensures State() == old(State()).(showAddForm := !old(showAddForm), editingTrack := None)
      ensures AddFormShown(State()) <==> !old(showAddForm)
    {
      showAddForm := !showAddForm;
      editingTrack := None;
    }

    /** Cancelling the edit form. */
    method CancelEdit()
      modifies this
      ensures State() == old(State()).(editingTrack := None)
    {
      editingTrack := None;
    }

    /**
     * Saving the submitted form data: the request is an update when the data
     * carries an id and a creation otherwise. On success both forms close and
     * the list is fetched again; on failure the error is shown and the form
     * stays open.
     */
    method HandleAddOrUpdate(trackData: ClientTrack, result: CallResult) returns (call: SaveCall, refetch: Option<QueryOptions>)
      modifies this
      ensures call == Dispatch(trackData)
      ensures result.Succeeded? ==>
        && State() == old(State()).(editingTrack := None, showAddForm := false, isLoading := true, error := None)
        && refetch == Some(PageQuery(currentPage, filters, sortBy, sortOrder))
      ensures result.CallFailed? ==>
        && State() == old(State()).(error := Some(ErrorText(result.message, SaveFailedMessage)), isLoading := false)
        && refetch.None?
    {
      isLoading := true;
      call := Dispatch(trackData);
      if result.Succeeded? {
        editingTrack := None;
        showAddForm := false;
        var q := BeginFetch();
        refetch := Some(q);
      } else {
        error := Some(ErrorText(result.message, SaveFailedMessage));
        isLoading := false;
        refetch := None;
      }
    }

    /**
     * Deleting after the user's confirmation. Nothing happens for an empty id
     * or when the user declines; on success the list is fetched again.
     */
    method HandleDelete(id: TrackId, confirmed: bool, result: CallResult) returns (call: Option<TrackId>, refetch: Option<QueryOptions>)
      modifies this
      ensures id == "" || !confirmed ==> call.None? && refetch.None? && State() == old(State())
      ensures id != "" && confirmed ==> call == Some(id)
      ensures id != "" && confirmed && result.Succeeded? ==>
        && State() == old(State()).(isLoading := true, error := None)
        && refetch == Some(PageQuery(currentPage, filters, sortBy, sortOrder))
      ensures id != "" && confirmed && result.CallFailed? ==>
        && State() == old(State()).(error := Some(ErrorText(result.message, DeleteFailedMessage)), isLoading := false)
        && refetch.None?
    {
      if id == "" || !confirmed {
        return None, None;
      }
      isLoading := true;
      call := Some(id);
      if result.Succeeded? {
        var q := BeginFetch();
        refetch := Some(q);
      } else {
        error := Some(ErrorText(result.message, DeleteFailedMessage));
        isLoading := false;
        refetch := None;
      }
    }
  }

  /**
   * A page chosen with the pagination controls, followed by a fetch whose
   * page count has not changed, leaves the page where it was chosen.
   */
  method ControlsThenFetch(page: TrackListPage, data: seq<ClientTrack>)
    requires 1 <= page.currentPage <= page.totalPages
    modifies page
    ensures 1 <= page.currentPage <= page.totalPages
  {
    var next := PaginationControls.HandleNext(page.currentPage, page.totalPages);
    PaginationControls.RequestedPageInRange(page.currentPage, page.totalPages);
    if next.Some? {
      page.HandlePageChange(next.value);
    }
    var q := page.BeginFetch();
    var total := page.totalPages;
    page.CompleteFetch(Fetched(data, total));
    ClampInRange(q.page.value, total);
  }
}
