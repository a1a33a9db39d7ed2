/**
 * The add/edit form: three text inputs held as component state, filled from
 * the track being edited or cleared, and a submit that refuses an empty
 * field and carries the edited track's id.
 */
module TrackForm {
  import opened Common
  import opened TrackTypes

  /** The form's three inputs. */
  datatype FormData = FormData(title: string, artist: string, album: string)

  const EmptyForm := FormData("", "", "")

  function Field(d: FormData, f: TextField): string {
    match f
    case TitleField => d.title
    case ArtistField => d.artist
    case AlbumField => d.album
  }

  /** Every input holds something. */
  predicate Complete(d: FormData) {
    d.title != "" && d.artist != "" && d.album != ""
  }

  /** The id that goes with a submission: the edited track's `_id`, when editing and it has one. */
  function CarriedId(initialData: Option<ClientTrack>, isEditing: bool): (id: Option<TrackId>)
    ensures id.Some? <==> isEditing && initialData.Some? && Truthy(initialData.value.id)
    ensures id.Some? ==> id == initialData.value.id
  {
    if isEditing && initialData.Some? && Truthy(initialData.value.id) then initialData.value.id else None
  }

  class TrackForm {
    var formData: FormData

    constructor ()
      ensures formData == EmptyForm
    {
      formData := EmptyForm;
    }

    /** The effect run when the edited track or the mode changes. */
    method SyncFromProps(initialData: Option<ClientTrack>, isEditing: bool)
      modifies this
      ensures isEditing && initialData.Some? ==>
        formData == FormData(initialData.value.title, initialData.value.artist, initialData.value.album)
      ensures !(isEditing && initialData.Some?) ==> formData == EmptyForm
    {
      if isEditing && initialData.Some? {
        formData := FormData(initialData.value.title, initialData.value.artist, initialData.value.album);
      } else {
        formData := EmptyForm;
      }
    }

    /** Typing in one input changes that field only. */
    method HandleChange(field: TextField, value: string)
      modifies this
      ensures Field(formData, field) == value
      ensures forall g :: g != field ==> Field(formData, g) == Field(old(formData), g)
    {
      match field
      case TitleField => formData := formData.(title := value);
      case ArtistField => formData := formData.(artist := value);
      case AlbumField => formData := formData.(album := value);
    }

    /**
     * Submitting: nothing is handed on while a field is empty; otherwise the
     * three values, with the edited track's id when there is one.
     */
    method HandleSubmit(initialData: Option<ClientTrack>, isEditing: bool) returns (submitted: Option<ClientTrack>)
      ensures submitted.None? <==> !Complete(formData)
      ensures submitted.Some? ==>
        && submitted.value.title == formData.title
        && submitted.value.artist == formData.artist
        && submitted.value.album == formData.album
        && submitted.value.id == CarriedId(initialData, isEditing)
    {
      if formData.title == "" || formData.artist == "" || formData.album == "" {
        return None;
      }
      submitted := Some(ClientTrack(CarriedId(initialData, isEditing), formData.title, formData.artist, formData.album));
    }
  }

  /** Loading a track for editing and submitting it unchanged hands back the same track. */
  method EditRoundTrip(t: ClientTrack) returns (submitted: Option<ClientTrack>)
    requires t.title != "" && t.artist != "" && t.album != ""
    requires Truthy(t.id)
    ensures submitted == Some(t)
  {
    var form := new TrackForm();
    form.SyncFromProps(Some(t), true);
    submitted := form.HandleSubmit(Some(t), true);
  }
}
