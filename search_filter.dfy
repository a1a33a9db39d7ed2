/**
 * The filter and sort form: three text inputs held as component state, a
 * submit that hands on the non-empty ones, and two selects that pick the
 * sort field and direction.
 */
module SearchFilter {
  import opened Common
  import opened TrackTypes

  /** `s || undefined`: the empty string becomes absent, anything else is kept. */
  function OrAbsent(s: string): Option<string> {
    if s == "" then None else Some(s)
  }

  /** The empty input is the only one dropped; white space is sent as typed. */
  lemma OrAbsentKeepsNonEmpty(s: string)
    ensures OrAbsent(s).None? <==> s == ""
    ensures OrAbsent(s).Some? ==> OrAbsent(s).value == s
    ensures Truthy(OrAbsent(s)) <==> s != ""
  {
  }

  /** The sort fields the first select offers, in order; `updatedAt` is not among them. */
  const SortByOptions: seq<SortByField> := [Title, Artist, Album, CreatedAt]

  /** The values a select can report: one of its own options. */
  predicate Offered(name: string, value: string) {
    && (name == "sortBy" ==> exists f :: f in SortByOptions && SortByName(f) == value)
    && (name == "sortOrder" ==> value == "asc" || value == "desc")
  }

  /**
   * A change on one of the selects: the sort pair to hand on, with the
   * other half of the pair as it currently is. A change from any other
   * control hands on nothing.
   */
  function HandleSortChange(name: string, value: string, currentSortBy: SortByField, currentSortOrder: SortOrder)
    : (emitted: Option<(SortByField, SortOrder)>)
    requires Offered(name, value)
    ensures name == "sortBy" ==>
      emitted.Some? && SortByName(emitted.value.0) == value && emitted.value.0 in SortByOptions
      && emitted.value.1 == currentSortOrder
    ensures name == "sortOrder" ==>
      emitted.Some? && emitted.value.0 == currentSortBy && SortOrderName(emitted.value.1) == value
    ensures name != "sortBy" && name != "sortOrder" ==> emitted.None?
  {
    if name == "sortBy" then
      Some((ParseSortBy(value).value, currentSortOrder))
    else if name == "sortOrder" then
      Some((currentSortBy, if value == "asc" then Asc else Desc))
    else
      None
  }

  /** The sort field handed on is never `updatedAt` unless it already was the current one. */
  lemma UpdatedAtNeverChosen(name: string, value: string, currentSortBy: SortByField, currentSortOrder: SortOrder)
    requires Offered(name, value)
    requires currentSortBy != UpdatedAt
    ensures var e := HandleSortChange(name, value, currentSortBy, currentSortOrder);
      e.Some? ==> e.value.0 != UpdatedAt
  {
  }

  class SearchFilter {
    var title: string
    var artist: string
    var album: string

    constructor ()
      ensures title == "" && artist == "" && album == ""
    {
      title := "";
      artist := "";
      album := "";
    }

    /** Typing in the title input. */
    method SetTitle(value: string)
      modifies this
      ensures title == value && artist == old(artist) && album == old(album)
    {
      title := value;
    }

    /** Typing in the artist input. */
    method SetArtist(value: string)
      modifies this
      ensures artist == value && title == old(title) && album == old(album)
    {
      artist := value;
    }

    /** Typing in the album input. */
    method SetAlbum(value: string)
      modifies this
      ensures album == value && title == old(title) && artist == old(artist)
    {
      album := value;
    }

    /** Submitting: each input is handed on verbatim, or as absent when it is empty. */
    method HandleFilterSubmit() returns (f: Filters)
      ensures f.title.None? <==> title == ""
      ensures f.artist.None? <==> artist == ""
      ensures f.album.None? <==> album == ""
      ensures f.title.Some? ==> f.title.value == title
      ensures f.artist.Some? ==> f.artist.value == artist
      ensures f.album.Some? ==> f.album.value == album
    {
      f := Filters(OrAbsent(title), OrAbsent(artist), OrAbsent(album));
    }
  }
}
