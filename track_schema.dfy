/**
 * The track schema: each of title, artist and album is a required string
 * that is whitespace-trimmed before it is validated and stored; every record
 * carries creation and update timestamps.
 */
module TrackSchema {
  import opened Common
  import opened TrackTypes

  /** The characters JavaScript's `String.prototype.trim` removes (white space and line terminators). */
  predicate IsWhitespace(c: char) {
    c == '\t' || c == '\n' || c == '\U{000B}' || c == '\U{000C}' || c == '\r' || c == ' '
    || c == '\U{00A0}' || c == '\U{1680}' || ('\U{2000}' <= c <= '\U{200A}')
    || c == '\U{2028}' || c == '\U{2029}' || c == '\U{202F}' || c == '\U{205F}'
    || c == '\U{3000}' || c == '\U{FEFF}'
  }

  /** No white space at either end. */
  predicate IsTrimmed(s: string) {
    s == [] || (!IsWhitespace(s[0]) && !IsWhitespace(s[|s| - 1]))
  }

  /** Drops leading white space: the result is a suffix, and what was dropped is all white space. */
  function TrimStart(s: string): (r: string)
    ensures |r| <= |s| && r == s[|s| - |r|..]
    ensures r == [] || !IsWhitespace(r[0])
    ensures forall k :: 0 <= k < |s| - |r| ==> IsWhitespace(s[k])
  {
    if s != [] && IsWhitespace(s[0]) then TrimStart(s[1..]) else s
  }

  /** Drops trailing white space: the result is a prefix, and what was dropped is all white space. */
  function TrimEnd(s: string): (r: string)
    ensures |r| <= |s| && r == s[..|r|]
    ensures r == [] || !IsWhitespace(r[|r| - 1])
    ensures forall k :: |r| <= k < |s| ==> IsWhitespace(s[k])
  {
    if s != [] && IsWhitespace(s[|s| - 1]) then TrimEnd(s[..|s| - 1]) else s
  }

  /** `s.trim()`. */
  function Trim(s: string): (r: string)
  {
    TrimEnd(TrimStart(s))
  }

  /** Trimming yields a contiguous piece of the input with no white space at its ends, and only white space is cut. */
  lemma TrimIsTrimmedSlice(s: string)
    ensures IsTrimmed(Trim(s))
    ensures exists i, j ::
              && 0 <= i <= j <= |s| && Trim(s) == s[i..j]
              && (forall k :: 0 <= k < i ==> IsWhitespace(s[k]))
              && (forall k :: j <= k < |s| ==> IsWhitespace(s[k]))
  {
    var a := TrimStart(s);
    var r := TrimEnd(a);
    var i := |s| - |a|;
    assert r == s[i..i + |r|];
    if r != [] {
      assert r[0] == a[0];
    }
  }

  /** Trimming twice is trimming once. */
  lemma TrimIdempotent(s: string)
    ensures Trim(Trim(s)) == Trim(s)
  {
    var r := Trim(s);
    TrimIsTrimmedSlice(s);
    assert TrimStart(r) == r;
    assert TrimEnd(r) == r;
  }

  /** Text with no white space at either end is left as it is. */
  lemma TrimKeepsTrimmed(s: string)
    requires IsTrimmed(s)
    ensures Trim(s) == s
  {
    assert TrimStart(s) == s;
  }

  /** A string trims to nothing exactly when it is all white space. */
  lemma TrimEmptyIffBlank(s: string)
    ensures Trim(s) == [] <==> forall k :: 0 <= k < |s| ==> IsWhitespace(s[k])
  {
  }

  /** The message the schema gives when a required field is missing. */
  function RequiredMessage(f: TextField): string {
    match f
    case TitleField => "Please add a track title"
    case ArtistField => "Please add an artist name"
    case AlbumField => "Please add an album name"
  }

  /** The schema path of a field. */
  function PathName(f: TextField): string {
    match f
    case TitleField => "title"
    case ArtistField => "artist"
    case AlbumField => "album"
  }

  /** The three text values handed to the model, as sent (each possibly absent). */
  datatype TrackInput = TrackInput(title: Option<string>, artist: Option<string>, album: Option<string>)

  /** The three text values as stored after validation. */
  datatype TrackFields = TrackFields(title: string, artist: string, album: string)

  /** A stored field: required means present and non-empty once trimmed. */
  predicate PassesRequired(v: Option<string>) {
    v.Some? && Trim(v.value) != ""
  }

  /** All three fields pass the required validator. */
  predicate AllRequiredPresent(input: TrackInput) {
    PassesRequired(input.title) && PassesRequired(input.artist) && PassesRequired(input.album)
  }

  /** The value the input gives for a field. */
  function FieldValue(input: TrackInput, f: TextField): Option<string> {
    match f
    case TitleField => input.title
    case ArtistField => input.artist
    case AlbumField => input.album
  }

  /** A field's place in the schema: title, then artist, then album. */
  function SchemaRank(f: TextField): nat {
    match f
    case TitleField => 0
    case ArtistField => 1
    case AlbumField => 2
  }

  /** The fields that fail the required validator: exactly those, each once, in schema order. */
  function FailingFields(input: TrackInput): (fs: seq<TextField>)
    ensures TitleField in fs <==> !PassesRequired(input.title)
    ensures ArtistField in fs <==> !PassesRequired(input.artist)
    ensures AlbumField in fs <==> !PassesRequired(input.album)
    ensures forall i, j :: 0 <= i < j < |fs| ==> SchemaRank(fs[i]) < SchemaRank(fs[j])
    ensures fs == [] <==> AllRequiredPresent(input)
  {
    match (PassesRequired(input.title), PassesRequired(input.artist), PassesRequired(input.album))
    case (true, true, true) => []
    case (true, true, false) => [AlbumField]
    case (true, false, true) => [ArtistField]
    case (true, false, false) => [ArtistField, AlbumField]
    case (false, true, true) => [TitleField]
    case (false, true, false) => [TitleField, AlbumField]
    case (false, false, true) => [TitleField, ArtistField]
    case (false, false, false) => [TitleField, ArtistField, AlbumField]
  }

  /** A field fails exactly when it is among the failing fields. */
  lemma FailingFieldsExactly(input: TrackInput)
    ensures forall f :: f in FailingFields(input) <==> !PassesRequired(FieldValue(input, f))
  {
    forall f
      ensures f in FailingFields(input) <==> !PassesRequired(FieldValue(input, f))
    {
      match f
      case TitleField =>
      case ArtistField =>
      case AlbumField =>
    }
  }

  /** Different fields have different required messages. */
  lemma RequiredMessageInjective(f: TextField, g: TextField)
    requires RequiredMessage(f) == RequiredMessage(g)
    ensures f == g
  {
  }

  /** The required messages of the given fields, in the same order. */
  function RequiredMessages(fs: seq<TextField>): (msgs: seq<string>)
    ensures |msgs| == |fs|
    ensures forall i :: 0 <= i < |fs| ==> msgs[i] == RequiredMessage(fs[i])
  {
    seq(|fs|, i requires 0 <= i < |fs| => RequiredMessage(fs[i]))
  }

  /** A field's message is in the list exactly when the field is. */
  lemma RequiredMessagesNameExactly(fs: seq<TextField>)
    ensures forall f :: RequiredMessage(f) in RequiredMessages(fs) <==> f in fs
  {
    var msgs := RequiredMessages(fs);
    forall f
      ensures RequiredMessage(f) in msgs <==> f in fs
    {
      if RequiredMessage(f) in msgs {
        var i :| 0 <= i < |msgs| && msgs[i] == RequiredMessage(f);
        RequiredMessageInjective(f, fs[i]);
      }
      if f in fs {
        var i :| 0 <= i < |fs| && fs[i] == f;
        assert msgs[i] == RequiredMessage(f);
      }
    }
  }

  /**
   * The messages of the failing fields, in schema order: a field's message
   * is among them exactly when that field fails.
   */
  function FailureMessages(input: TrackInput): (msgs: seq<string>)
    ensures |msgs| == |FailingFields(input)| <= 3
    ensures forall i :: 0 <= i < |msgs| ==> msgs[i] == RequiredMessage(FailingFields(input)[i])
    ensures msgs == [] <==> AllRequiredPresent(input)
    ensures forall f :: RequiredMessage(f) in msgs <==> !PassesRequired(FieldValue(input, f))
    ensures !PassesRequired(input.title) ==> msgs[0] == RequiredMessage(TitleField)
    ensures !PassesRequired(input.album) ==> msgs[|msgs| - 1] == RequiredMessage(AlbumField)
  {
    FailingFieldsExactly(input);
    RequiredMessagesNameExactly(FailingFields(input));
    RequiredMessages(FailingFields(input))
  }

  /**
   * Casting and validating a document: each value is trimmed, then the
   * required validator runs; success gives the trimmed values.
   */
  function Validate(input: TrackInput): (r: Result<TrackFields, seq<string>>)
    ensures r.Ok? <==> AllRequiredPresent(input)
    ensures r.Ok? ==> r.value == TrackFields(Trim(input.title.value), Trim(input.artist.value), Trim(input.album.value))
    ensures r.Ok? ==> FieldsWellFormed(r.value)
    ensures r.Err? ==> r.error != [] && r.error == FailureMessages(input)
  {
    var msgs := FailureMessages(input);
    if msgs == [] then
      TrimIdempotent(input.title.value);
      TrimIdempotent(input.artist.value);
      TrimIdempotent(input.album.value);
      Ok(TrackFields(Trim(input.title.value), Trim(input.artist.value), Trim(input.album.value)))
    else
      Err(msgs)
  }

  /** A field value the schema can hold: never empty, and already trimmed. */
  predicate StoredText(s: string) {
    s != "" && Trim(s) == s
  }

  predicate FieldsWellFormed(t: TrackFields) {
    StoredText(t.title) && StoredText(t.artist) && StoredText(t.album)
  }

  /** The record invariant the controller relies on. */
  predicate WellFormed(t: Track) {
    StoredText(t.title) && StoredText(t.artist) && StoredText(t.album)
  }

  /** A stored field is never empty even after trimming again. */
  lemma StoredTextNeverBlank(s: string)
    requires StoredText(s)
    ensures Trim(s) != "" && IsTrimmed(s)
  {
    TrimIsTrimmedSlice(s);
  }

  /** The header of a validation error raised while creating a document (it names the model). */
  const CreateValidationHeader := "Track validation failed"

  /** The header of a validation error raised by the validators of an update query. */
  const UpdateValidationHeader := "Validation failed"

  /** One `path: message` entry per failing field, in schema order. */
  function ValidationParts(input: TrackInput): (parts: seq<string>)
    ensures |parts| == |FailingFields(input)|
    ensures forall i :: 0 <= i < |parts| ==>
      parts[i] == PathName(FailingFields(input)[i]) + ": " + FailureMessages(input)[i]
  {
    var fs := FailingFields(input);
    seq(|fs|, i requires 0 <= i < |fs| => PathName(fs[i]) + ": " + RequiredMessage(fs[i]))
  }

  /** The error message that validation failure carries, as the ODM formats it. */
  function ValidationMessage(header: string, input: TrackInput): string {
    header + ": " + Join(ValidationParts(input))
  }

  /** The entries separated by a comma and a space. */
  function Join(parts: seq<string>): string {
    if parts == [] then "" else if |parts| == 1 then parts[0] else parts[0] + ", " + Join(parts[1..])
  }

  /** Each entry appears in the joined text, between what `pre` and `post` hold. */
  lemma {:induction false} JoinHasPart(parts: seq<string>, i: nat) returns (pre: string, post: string)
    requires i < |parts|
    ensures Join(parts) == pre + parts[i] + post
  {
    if |parts| == 1 {
      pre, post := "", "";
    } else if i == 0 {
      pre, post := "", ", " + Join(parts[1..]);
    } else {
      var p, q := JoinHasPart(parts[1..], i - 1);
      pre, post := parts[0] + ", " + p, q;
    }
  }

  /** A validation error's message names every failing field with that field's required message. */
  lemma ValidationMessageNamesField(header: string, input: TrackInput, f: TextField) returns (pre: string, post: string)
    requires !PassesRequired(FieldValue(input, f))
    ensures ValidationMessage(header, input) == pre + (PathName(f) + ": " + RequiredMessage(f)) + post
  {
    var fs := FailingFields(input);
    FailingFieldsExactly(input);
    var i :| 0 <= i < |fs| && fs[i] == f;
    var parts := ValidationParts(input);
    var p, q := JoinHasPart(parts, i);
    var entry := parts[i];
    assert entry == PathName(f) + ": " + RequiredMessage(f) by {
      assert FailureMessages(input)[i] == RequiredMessage(f);
    }
    ConcatShift(header + ": ", p, entry, q);
    pre, post := header + ": " + p, q;
  }

  lemma ConcatShift(a: string, b: string, c: string, d: string)
    ensures a + (b + c + d) == (a + b) + c + d
  {
  }

  /** A new record: both timestamps are the creation time. */
  function NewRecord(id: TrackId, f: TrackFields, now: int): (t: Track)
    ensures FieldsWellFormed(f) ==> WellFormed(t)
  {
    Track(id, f.title, f.artist, f.album, now, now)
  }

  /** An updated record: the id and creation time are kept, the update time is refreshed. */
  function UpdatedRecord(old_: Track, f: TrackFields, now: int): (t: Track)
    ensures FieldsWellFormed(f) ==> WellFormed(t)
  {
    Track(old_.id, f.title, f.artist, f.album, old_.createdAt, now)
  }
}
