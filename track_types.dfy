/**
 * The value types the server and the client share: the sort field and
 * direction, the stored track record, the paginated envelope, and the
 * client's view of a track.
 */
module TrackTypes {
  import opened Common

  /** A document identifier, as the string form of the database's id. */
  type TrackId = string

  /** The fields a list may be sorted by. */
  datatype SortByField = Title | Artist | Album | CreatedAt | UpdatedAt

  datatype SortOrder = Asc | Desc

  /** The three text fields of a track, named as in forms and schema paths. */
  datatype TextField = TitleField | ArtistField | AlbumField

  /** The wire name of a sort field. */
  function SortByName(f: SortByField): string {
    match f
    case Title => "title"
    case Artist => "artist"
    case Album => "album"
    case CreatedAt => "createdAt"
    case UpdatedAt => "updatedAt"
  }

  /** The wire name of a sort order. */
  function SortOrderName(o: SortOrder): string {
    match o
    case Asc => "asc"
    case Desc => "desc"
  }

  /** Reads a sort-field name; `None` for a string that names none of the five. */
  function ParseSortBy(s: string): (r: Option<SortByField>)
    ensures r.Some? ==> SortByName(r.value) == s
    ensures forall f :: SortByName(f) == s ==> r == Some(f)
  {
    if s == "title" then Some(Title)
    else if s == "artist" then Some(Artist)
    else if s == "album" then Some(Album)
    else if s == "createdAt" then Some(CreatedAt)
    else if s == "updatedAt" then Some(UpdatedAt)
    else None
  }

  /** A stored track; the timestamps are integers (e.g. milliseconds since the epoch). */
  datatype Track = Track(
    id: TrackId,
    title: string,
    artist: string,
    album: string,
    createdAt: int,
    updatedAt: int)

  datatype Pagination = Pagination(
    currentPage: int,
    totalPages: nat,
    totalItems: nat,
    pageSize: int)

  /** The list endpoint's response envelope. */
  datatype PaginatedTracks = PaginatedTracks(data: seq<Track>, pagination: Pagination)

  /** The client's view of a track (`_id` may be absent, e.g. on a new record). */
  datatype ClientTrack = ClientTrack(id: Option<TrackId>, title: string, artist: string, album: string)

  /** The record a server track becomes on the client once serialised to JSON. */
  function ToClient(t: Track): (c: ClientTrack)
    ensures c.id == Some(t.id)
    ensures c.title == t.title && c.artist == t.artist && c.album == t.album
  {
    ClientTrack(Some(t.id), t.title, t.artist, t.album)
  }

  /** The optional title/artist/album filter strings the client keeps. */
  datatype Filters = Filters(title: Option<string>, artist: Option<string>, album: Option<string>)

  const NoFilters := Filters(None, None, None)
}
