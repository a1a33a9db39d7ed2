/**
 * The track controller: create, list, get, update and delete over the
 * document store. The store holds each record under its id and remembers
 * the natural (insertion) order in which the list endpoint scans them.
 * A handler either replies or passes an error on, with whatever status it
 * set beforehand, to the error handler.
 */
module TrackController {
  import opened Common
  import opened TrackTypes
  import opened TrackSchema
  import opened TrackQuery
  import opened ErrorHandler

  const ProvideAllMessage := "Please provide title, artist, and album"
  const NotFoundMessage := "Track not found"
  const RemovedMessage := "Track removed successfully"

  /** An error thrown by a handler; its stack holds only the header line the runtime writes. */
  function Thrown(message: string): AppError {
    AppError(message, None, Some("Error: " + message))
  }

  /** The error the schema raises when validation fails; it carries no status code. */
  function ValidationFailure(header: string, input: TrackInput): AppError {
    AppError(ValidationMessage(header, input), None, Some("ValidationError: " + ValidationMessage(header, input)))
  }

  datatype Body =
    | TrackBody(track: Track)
    | ListBody(page: PaginatedTracks)
    | RemovedBody(message: string, id: TrackId)
    | ErrorBody(error: ErrorEnvelope)

  /** What a handler produces: a reply, or an error handed on with the status set so far. */
  datatype Outcome = Reply(status: int, body: Body) | Raise(preset: int, error: AppError)

  datatype HttpResponse = HttpResponse(status: int, body: Body)

  /** The response the client receives: replies go out as they are, errors through the error handler. */
  function Respond(o: Outcome, production: bool): (resp: HttpResponse)
    ensures o.Reply? ==> resp == HttpResponse(o.status, o.body)
    ensures o.Raise? ==> resp.status == FinalStatus(o.preset, o.error) && resp.body.ErrorBody?
    ensures o.Raise? ==> resp.body.error.status == "error" && resp.body.error.message == o.error.message
  {
    match o
    case Reply(status, body) => HttpResponse(status, body)
    case Raise(preset, err) =>
      var (status, envelope) := Handle(preset, err, production);
      HttpResponse(status, ErrorBody(envelope))
  }

  /** The controller's own check: each of title, artist and album is present and non-empty. */
  predicate AllTruthy(body: TrackInput) {
    Truthy(body.title) && Truthy(body.artist) && Truthy(body.album)
  }

  /** An unknown id gives 404 with the error envelope. */
  lemma NotFoundResponds404(production: bool)
    ensures Respond(Raise(404, Thrown(NotFoundMessage)), production).status == 404
    ensures Respond(Raise(404, Thrown(NotFoundMessage)), production).body.error
      == ErrorEnvelope("error", "Track not found", if production then None else Some("Error: Track not found"))
  {
    assert "Error: " + NotFoundMessage == "Error: Track not found";
  }

  /** A missing field gives 400. */
  lemma MissingFieldResponds400(production: bool)
    ensures Respond(Raise(400, Thrown(ProvideAllMessage)), production).status == 400
  {
  }

  /**
   * A field that is present but only white space passes the controller's
   * check; the schema then rejects it, and since no status was set the
   * response is 500, not 400.
   */
  lemma BlankFieldResponds500(header: string, body: TrackInput, production: bool)
    requires AllTruthy(body) && !AllRequiredPresent(body)
    ensures Respond(Raise(DefaultStatus, ValidationFailure(header, body)), production).status == 500
  {
  }

  /** A title of one space is such a field. */
  lemma SpaceTitleIsTruthyButBlank()
    ensures AllTruthy(TrackInput(Some(" "), Some("a"), Some("b")))
    ensures !AllRequiredPresent(TrackInput(Some(" "), Some("a"), Some("b")))
  {
    assert TrimStart(" ") == TrimStart("");
  }

  /**
   * The response to a field that fails validation names it: its message
   * holds the field's path followed by that field's required message.
   */
  lemma FailingFieldNamedInResponse(header: string, body: TrackInput, f: TextField, production: bool)
    returns (pre: string, post: string)
    requires !PassesRequired(FieldValue(body, f))
    ensures Respond(Raise(DefaultStatus, ValidationFailure(header, body)), production).body.error.message
      == pre + (PathName(f) + ": " + RequiredMessage(f)) + post
  {
    pre, post := ValidationMessageNamesField(header, body, f);
  }

  predicate NoDuplicates(ids: seq<TrackId>) {
    forall i, j :: 0 <= i < j < |ids| ==> ids[i] != ids[j]
  }

  /** The ids with `id` taken out, order kept. */
  function Without(ids: seq<TrackId>, id: TrackId): (r: seq<TrackId>)
    ensures forall x :: x in r <==> x in ids && x != id
    ensures NoDuplicates(ids) ==> NoDuplicates(r)
  {
    if ids == [] then []
    else if ids[0] == id then Without(ids[1..], id)
    else
      var rest := Without(ids[1..], id);
      assert NoDuplicates(ids) ==> ids[0] !in ids[1..];
      [ids[0]] + rest
  }

  /** The records named by `ids`, in that order. */
  function DocumentsOf(ids: seq<TrackId>, m: map<TrackId, Track>): (docs: seq<Track>)
    requires forall i :: 0 <= i < |ids| ==> ids[i] in m
    ensures |docs| == |ids|
    ensures forall i :: 0 <= i < |ids| ==> docs[i] == m[ids[i]]
  {
    seq(|ids|, i requires 0 <= i < |ids| => m[ids[i]])
  }

  /**
   * The store's invariant: every record sits under its own id and is well
   * formed, and the natural order lists each stored id exactly once.
   */
  ghost predicate StoreInvariant(m: map<TrackId, Track>, ids: seq<TrackId>) {
    && (forall id :: id in m ==> m[id].id == id && WellFormed(m[id]))
    && (forall id :: id in m <==> id in ids)
    && NoDuplicates(ids)
  }

  lemma InsertKeepsInvariant(m: map<TrackId, Track>, ids: seq<TrackId>, t: Track)
    requires StoreInvariant(m, ids)
    requires t.id !in m && WellFormed(t)
    ensures StoreInvariant(m[t.id := t], ids + [t.id])
  {
    var ids' := ids + [t.id];
    forall i, j | 0 <= i < j < |ids'|
      ensures ids'[i] != ids'[j]
    {
      if j == |ids| {
        assert ids[i] in ids;
      }
    }
  }

  /** Inserting a record puts it last in natural order and leaves the others as they were. */
  lemma InsertAppendsDocument(m: map<TrackId, Track>, ids: seq<TrackId>, t: Track)
    requires StoreInvariant(m, ids)
    requires t.id !in m
    ensures forall i :: 0 <= i < |ids + [t.id]| ==> (ids + [t.id])[i] in m[t.id := t]
    ensures DocumentsOf(ids + [t.id], m[t.id := t]) == DocumentsOf(ids, m) + [t]
  {
    var ids' := ids + [t.id];
    var m' := m[t.id := t];
    forall i | 0 <= i < |ids|
      ensures ids'[i] != t.id
    {
      assert ids[i] in ids;
    }
  }

  lemma ReplaceKeepsInvariant(m: map<TrackId, Track>, ids: seq<TrackId>, t: Track)
    requires StoreInvariant(m, ids)
    requires t.id in m && WellFormed(t)
    ensures StoreInvariant(m[t.id := t], ids)
  {
  }

  lemma RemoveKeepsInvariant(m: map<TrackId, Track>, ids: seq<TrackId>, id: TrackId)
    requires StoreInvariant(m, ids)
    ensures StoreInvariant(m - {id}, Without(ids, id))
  {
  }

  /** The store's contents: the records by id and the ids in natural order. */
  datatype StoreState = StoreState(tracks: map<TrackId, Track>, order: seq<TrackId>)

  /** What a handler produces and the store it leaves behind. */
  datatype Step = Step(outcome: Outcome, store: StoreState)

  /**
   * POST: 400 when a field is missing or empty, the schema's validation error
   * (with no status set) when a field is blank once trimmed, and otherwise
   * 201 with a new record of the trimmed fields stamped with the current
   * time. Only a success changes the store.
   */
  function Create(s: StoreState, body: TrackInput, newId: TrackId, now: int): (r: Step)
    ensures !AllTruthy(body) ==> r == Step(Raise(400, Thrown(ProvideAllMessage)), s)
    ensures AllTruthy(body) && !AllRequiredPresent(body) ==>
      r == Step(Raise(DefaultStatus, ValidationFailure(CreateValidationHeader, body)), s)
    ensures AllTruthy(body) && AllRequiredPresent(body) ==>
      var t := Track(newId, Trim(body.title.value), Trim(body.artist.value), Trim(body.album.value), now, now);
      && r.outcome == Reply(201, TrackBody(t))
      && r.store == StoreState(s.tracks[newId := t], s.order + [newId])
  {
    if !AllTruthy(body) then Step(Raise(400, Thrown(ProvideAllMessage)), s)
    else
      var v := Validate(body);
      if v.Err? then Step(Raise(DefaultStatus, ValidationFailure(CreateValidationHeader, body)), s)
      else
        var t := NewRecord(newId, v.value, now);
        Step(Reply(201, TrackBody(t)), StoreState(s.tracks[newId := t], s.order + [newId]))
  }

  /** Creating under a fresh id keeps the store's invariant. */
  lemma CreateKeepsInvariant(s: StoreState, body: TrackInput, newId: TrackId, now: int)
    requires StoreInvariant(s.tracks, s.order) && newId !in s.tracks
    ensures StoreInvariant(Create(s, body, newId, now).store.tracks, Create(s, body, newId, now).store.order)
  {
    if AllTruthy(body) && Validate(body).Ok? {
      InsertKeepsInvariant(s.tracks, s.order, NewRecord(newId, Validate(body).value, now));
    }
  }

  /** A created record comes last in natural order, after the records that were there. */
  lemma CreateAppendsDocument(s: StoreState, body: TrackInput, newId: TrackId, now: int)
    requires StoreInvariant(s.tracks, s.order) && newId !in s.tracks
    requires Create(s, body, newId, now).outcome.Reply?
    ensures var s' := Create(s, body, newId, now).store;
      && (forall i :: 0 <= i < |s'.order| ==> s'.order[i] in s'.tracks)
      && DocumentsOf(s'.order, s'.tracks) == DocumentsOf(s.order, s.tracks) + [Create(s, body, newId, now).outcome.body.track]
  {
    InsertAppendsDocument(s.tracks, s.order, NewRecord(newId, Validate(body).value, now));
  }

  /**
   * PUT: 404 for an unknown id, decided before the 400 for a missing or
   * empty field; then the update validators' error for a blank field; and
   * otherwise 200 with the record's fields replaced by the trimmed values,
   * its id and creation time kept and its update time refreshed. Only a
   * success changes the store, and only that record.
   */
  function Update(s: StoreState, id: TrackId, body: TrackInput, now: int): (r: Step)
    ensures id !in s.tracks ==> r == Step(Raise(404, Thrown(NotFoundMessage)), s)
    ensures id in s.tracks && !AllTruthy(body) ==> r == Step(Raise(400, Thrown(ProvideAllMessage)), s)
    ensures id in s.tracks && AllTruthy(body) && !AllRequiredPresent(body) ==>
      r == Step(Raise(DefaultStatus, ValidationFailure(UpdateValidationHeader, body)), s)
    ensures id in s.tracks && AllTruthy(body) && AllRequiredPresent(body) ==>
      var t := Track(s.tracks[id].id, Trim(body.title.value), Trim(body.artist.value), Trim(body.album.value), s.tracks[id].createdAt, now);
      && r.outcome == Reply(200, TrackBody(t))
      && r.store == StoreState(s.tracks[id := t], s.order)
  {
    if id !in s.tracks then Step(Raise(404, Thrown(NotFoundMessage)), s)
    else if !AllTruthy(body) then Step(Raise(400, Thrown(ProvideAllMessage)), s)
    else
      var v := Validate(body);
      if v.Err? then Step(Raise(DefaultStatus, ValidationFailure(UpdateValidationHeader, body)), s)
      else
        var t := UpdatedRecord(s.tracks[id], v.value, now);
        Step(Reply(200, TrackBody(t)), StoreState(s.tracks[id := t], s.order))
  }

  /** An update keeps the store's invariant; the record it returns carries the id it was asked for. */
  lemma UpdateKeepsInvariant(s: StoreState, id: TrackId, body: TrackInput, now: int)
    requires StoreInvariant(s.tracks, s.order)
    ensures var s' := Update(s, id, body, now).store;
      && StoreInvariant(s'.tracks, s'.order)
      && (Update(s, id, body, now).outcome.Reply? ==> Update(s, id, body, now).outcome.body.track.id == id)
  {
    if id in s.tracks && AllTruthy(body) && Validate(body).Ok? {
      var t := UpdatedRecord(s.tracks[id], Validate(body).value, now);
      ReplaceKeepsInvariant(s.tracks, s.order, t);
    }
  }

  /** The successful update, spelt out for the handler that performs it. */
  lemma UpdateSucceeds(s: StoreState, id: TrackId, body: TrackInput, now: int)
    requires StoreInvariant(s.tracks, s.order)
    requires id in s.tracks && AllTruthy(body) && Validate(body).Ok?
    ensures var t := UpdatedRecord(s.tracks[id], Validate(body).value, now);
      && Update(s, id, body, now) == Step(Reply(200, TrackBody(t)), StoreState(s.tracks[id := t], s.order))
      && StoreInvariant(s.tracks[id := t], s.order)
  {
    UpdateKeepsInvariant(s, id, body, now);
  }

  /** DELETE: 404 for an unknown id; otherwise the record leaves the store and the order, and its id is echoed. */
  function Delete(s: StoreState, id: TrackId): (r: Step)
    ensures id !in s.tracks ==> r == Step(Raise(404, Thrown(NotFoundMessage)), s)
    ensures id in s.tracks ==>
      && r.outcome == Reply(200, RemovedBody(RemovedMessage, id))
      && r.store.tracks == s.tracks - {id}
      && forall x :: x in r.store.order <==> x in s.order && x != id
  {
    if id !in s.tracks then Step(Raise(404, Thrown(NotFoundMessage)), s)
    else Step(Reply(200, RemovedBody(RemovedMessage, id)), StoreState(s.tracks - {id}, Without(s.order, id)))
  }

  /** A deletion keeps the store's invariant. */
  lemma DeleteKeepsInvariant(s: StoreState, id: TrackId)
    requires StoreInvariant(s.tracks, s.order)
    ensures StoreInvariant(Delete(s, id).store.tracks, Delete(s, id).store.order)
  {
    if id in s.tracks {
      RemoveKeepsInvariant(s.tracks, s.order, id);
    }
  }

  /** The document store: the records by id and their natural order, changed in place by the handlers. */
  class TrackStore {
    /** The records, by id. */
    var tracks: map<TrackId, Track>
    /** The ids in natural order: the order in which the records were inserted. */
    var order: seq<TrackId>

    function State(): StoreState
      reads this
    {
      StoreState(tracks, order)
    }

    ghost predicate Valid()
      reads this
    {
      StoreInvariant(tracks, order)
    }

    /** The records in natural order, as the list endpoint scans them. */
    function Documents(): seq<Track>
      reads this
      requires Valid()
    {
      DocumentsOf(order, tracks)
    }

    constructor ()
      ensures Valid()
      ensures State() == StoreState(map[], [])
    {
      tracks := map[];
      order := [];
    }

    /** POST: creates a record from the three fields under a fresh id. */
    method AddTrack(body: TrackInput, newId: TrackId, now: int) returns (o: Outcome)
      requires Valid()
      requires newId !in tracks
      modifies this
      ensures Valid()
      ensures Step(o, State()) == Create(old(State()), body, newId, now)
    {
      CreateKeepsInvariant(State(), body, newId, now);
      if !AllTruthy(body) {
        return Raise(400, Thrown(ProvideAllMessage));
      }
      var v := Validate(body);
      if v.Err? {
        return Raise(DefaultStatus, ValidationFailure(CreateValidationHeader, body));
      }
      var t := NewRecord(newId, v.value, now);
      tracks := tracks[newId := t];
      order := order + [newId];
      o := Reply(201, TrackBody(t));
    }

    /** GET list: the envelope of the records in natural order. */
    method GetAllTracks(r: ListRequest) returns (o: Outcome)
      requires Valid()
      requires Admissible(r)
      ensures o == Reply(200, ListBody(ListTracks(Documents(), r)))
    {
      o := Reply(200, ListBody(ListTracks(Documents(), r)));
    }

    /** GET one: the record with that id, or 404. */
    method GetTrackById(id: TrackId) returns (o: Outcome)
      requires Valid()
      ensures id in tracks ==> o == Reply(200, TrackBody(tracks[id])) && o.body.track.id == id
      ensures id !in tracks ==> o == Raise(404, Thrown(NotFoundMessage))
    {
      if id !in tracks {
        return Raise(404, Thrown(NotFoundMessage));
      }
      o := Reply(200, TrackBody(tracks[id]));
    }

    /** PUT: replaces the three fields of an existing record. */
    method UpdateTrack(id: TrackId, body: TrackInput, now: int) returns (o: Outcome)
      requires Valid()
      modifies this
      ensures Valid()
      ensures Step(o, State()) == Update(old(State()), id, body, now)
    {
      if id !in tracks {
        return Raise(404, Thrown(NotFoundMessage));
      }
      if !AllTruthy(body) {
        return Raise(400, Thrown(ProvideAllMessage));
      }
      var v := Validate(body);
      if v.Err? {
        return Raise(DefaultStatus, ValidationFailure(UpdateValidationHeader, body));
      }
      var t := UpdatedRecord(tracks[id], v.value, now);
      ghost var s := State();
      UpdateSucceeds(s, id, body, now);
      tracks := tracks[id := t];
      assert State() == StoreState(s.tracks[id := t], s.order);
      o := Reply(200, TrackBody(t));
    }

    /** DELETE: removes the record with that id and echoes the id. */
    method DeleteTrack(id: TrackId) returns (o: Outcome)
      requires Valid()
      modifies this
      ensures Valid()
      ensures Step(o, State()) == Delete(old(State()), id)
    {
      DeleteKeepsInvariant(State(), id);
      if id !in tracks {
        return Raise(404, Thrown(NotFoundMessage));
      }
      tracks := tracks - {id};
      order := Without(order, id);
      o := Reply(200, RemovedBody(RemovedMessage, id));
    }
  }

  /**
   * Create, read back and update one record, with field values that are
   * already trimmed; the contracts alone give each result.
   */
  method CreateUpdateScenario(title: string, newTitle: string, artist: string, album: string)
    requires StoredText(title) && StoredText(newTitle) && StoredText(artist) && StoredText(album)
  {
    var store := new TrackStore();
    CreateStoredFields(title, artist, album);
    var created := store.AddTrack(TrackInput(Some(title), Some(artist), Some(album)), "t1", 100);
    assert created == Reply(201, TrackBody(Track("t1", title, artist, album, 100, 100)));
    var fetched := store.GetTrackById("t1");
    assert fetched.body.track == created.body.track;

    UpdateStoredFields(Track("t1", title, artist, album, 100, 100), newTitle, artist, album);
    var updated := store.UpdateTrack("t1", TrackInput(Some(newTitle), Some(artist), Some(album)), 200);
    assert updated == Reply(200, TrackBody(Track("t1", newTitle, artist, album, 100, 200)));
  }

  /** Creating the first record from already-trimmed fields stores them as given. */
  lemma CreateStoredFields(title: string, artist: string, album: string)
    requires StoredText(title) && StoredText(artist) && StoredText(album)
    ensures var t := Track("t1", title, artist, album, 100, 100);
      Create(StoreState(map[], []), TrackInput(Some(title), Some(artist), Some(album)), "t1", 100)
        == Step(Reply(201, TrackBody(t)), StoreState(map["t1" := t], ["t1"]))
  {
  }

  /** Updating the only record with already-trimmed fields stores them as given. */
  lemma UpdateStoredFields(t: Track, title: string, artist: string, album: string)
    requires StoredText(title) && StoredText(artist) && StoredText(album)
    ensures var t' := Track(t.id, title, artist, album, t.createdAt, 200);
      Update(StoreState(map[t.id := t], [t.id]), t.id, TrackInput(Some(title), Some(artist), Some(album)), 200)
        == Step(Reply(200, TrackBody(t')), StoreState(map[t.id := t'], [t.id]))
  {
  }

  /** Deleting from an empty store is a 404 error envelope. */
  method DeleteUnknownScenario(production: bool)
  {
    var store := new TrackStore();
    var missing := store.DeleteTrack("t2");
    assert missing == Raise(404, Thrown(NotFoundMessage));
    NotFoundResponds404(production);
  }

  /** Deleting a stored record removes it: reading it back is then an error. */
  method DeleteScenario(title: string, artist: string, album: string)
    requires StoredText(title) && StoredText(artist) && StoredText(album)
  {
    var store := new TrackStore();
    var created := store.AddTrack(TrackInput(Some(title), Some(artist), Some(album)), "t1", 100);
    assert "t1" in store.tracks;

    var removed := store.DeleteTrack("t1");
    assert removed == Reply(200, RemovedBody("Track removed successfully", "t1"));
    assert "t1" !in store.tracks;
    var gone := store.GetTrackById("t1");
    assert gone.Raise?;
  }
}
