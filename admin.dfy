/** The admin panel's component state and its event handlers: loading the
    developer list, editing the form, accepting a photo, and saving or
    deleting a developer. Each remote call is a parameter holding its
    outcome; each write the panel sends is appended to `requests`. */
module Admin {
  import opened Common
  import opened Text
  import opened FormCodec
  import opened Records

  /** A write sent to the `developers` table. */
  datatype WriteRequest =
    | Insert(profile: Profile)
    | Update(id: string, profile: Profile)
    | Delete(id: string)

  /** The file chosen in the photo input: its MIME type and size in bytes. */
  datatype ImageFile = ImageFile(mimeType: string, size: nat)

  const MaxImageBytes: nat := 5 * 1024 * 1024
  const LoadError: string := "Failed to load developers"
  const BadImageType: string := "Please select a valid image file"
  const ImageTooLarge: string := "Image size should be less than 5MB"
  const SaveFallback: string := "Failed to save developer"
  const DeleteError: string := "Failed to delete developer"
  const Updated: string := "Developer updated successfully!"
  const Added: string := "Developer added successfully!"
  const Deleted: string := "Developer deleted successfully!"

  /** Why a chosen file is refused, or `None` when it is accepted: the type
      must start with "image/" (checked first) and the size may not exceed 5 MiB. */
  function ImageError(file: ImageFile): (e: Option<string>)
    ensures e.None? <==> StartsWith(file.mimeType, "image/") && file.size <= MaxImageBytes
    ensures !StartsWith(file.mimeType, "image/") ==> e == Some(BadImageType)
    ensures StartsWith(file.mimeType, "image/") && file.size > MaxImageBytes ==> e == Some(ImageTooLarge)
  {
    if !StartsWith(file.mimeType, "image/") then Some(BadImageType)
    else if file.size > MaxImageBytes then Some(ImageTooLarge)
    else None
  }

  /** The write a submit sends: an update of the developer being edited,
      keyed by its id, or else an insert; both carry the shaped form. */
  function SubmitRequest(editing: Option<DeveloperRow>, form: FormData): (w: WriteRequest)
    ensures w.Update? <==> editing.Some?
    ensures w.Update? ==> w.id == editing.value.id
    ensures !w.Delete? && w.profile == ShapeRecord(form)
  {
    match editing
    case Some(row) => Update(row.id, ShapeRecord(form))
    case None => Insert(ShapeRecord(form))
  }

  /** `err.message || 'Failed to save developer'`. */
  function SaveError(message: string): (e: string)
    ensures e != ""
    ensures message != "" ==> e == message
  {
    if message != "" then message else SaveFallback
  }

  /** A snapshot of every field of the panel, so that a handler's contract
      can state its whole new state in one equation. */
  datatype PanelState = PanelState(
    developers: seq<DeveloperRow>,
    loading: bool,
    error: string,
    success: string,
    showForm: bool,
    editingDeveloper: Option<DeveloperRow>,
    formData: FormData,
    selectedImage: Option<ImageFile>,
    imagePreview: string,
    requests: seq<WriteRequest>)

  /** The state of a freshly mounted panel. */
  function InitialPanel(): (s: PanelState)
    ensures s.loading && s.developers == [] && s.requests == []
    ensures !s.showForm && s.editingDeveloper.None? && s.formData == DefaultForm()
  {
    PanelState([], true, "", "", false, None, DefaultForm(), None, "", [])
  }

  /** The state `resetForm` leaves: the blank form, no photo, nothing being
      edited, the form closed; the list, the messages and the log are kept. */
  function ResetState(s: PanelState): (r: PanelState)
    ensures r.formData == DefaultForm() && r.editingDeveloper.None? && !r.showForm
    ensures r.selectedImage.None? && r.imagePreview == ""
    ensures r.developers == s.developers && r.error == s.error && r.success == s.success
    ensures r.loading == s.loading && r.requests == s.requests
  {
    s.(formData := DefaultForm(), selectedImage := None, imagePreview := "",
       editingDeveloper := None, showForm := false)
  }

  /** `fetchDevelopers` as one step: a success installs the rows (and leaves
      an earlier message in place), a failure sets the load error and keeps
      the old list; loading is false afterwards either way. */
  function FetchState(s: PanelState, result: FetchResult): (r: PanelState)
    ensures !r.loading
    ensures result.Fetched? ==> r.developers == RowsOrEmpty(result.data) && r.error == s.error
    ensures result.FetchFailed? ==> r.developers == s.developers && r.error == LoadError
    ensures r.success == s.success && r.showForm == s.showForm && r.formData == s.formData
    ensures r.editingDeveloper == s.editingDeveloper && r.requests == s.requests
    ensures r.selectedImage == s.selectedImage && r.imagePreview == s.imagePreview
  {
    match result
    case Fetched(data) => s.(developers := RowsOrEmpty(data), loading := false)
    case FetchFailed => s.(error := LoadError, loading := false)
  }

  /** `handleSubmit` as one step: both messages are cleared and one write is
      sent. On success the success message names the kind of write, the form
      is reset and the list is refreshed with `refresh`; on failure the error
      is the service's message (or the fallback) and the form, the edited
      developer and the open form are kept. */
  function SubmitState(s: PanelState, outcome: Outcome, refresh: FetchResult): (r: PanelState)
    ensures r.requests == s.requests + [SubmitRequest(s.editingDeveloper, s.formData)]
    ensures outcome.Done? ==> r.formData == DefaultForm() && r.editingDeveloper.None? && !r.showForm
    ensures outcome.Done? ==> r.success == (if s.editingDeveloper.Some? then Updated else Added)
    ensures outcome.Done? ==> r == FetchState(ResetState(s.(error := "", success := r.success,
      requests := r.requests)), refresh)
    ensures outcome.Failed? ==> r == s.(error := SaveError(outcome.message), success := "",
      requests := r.requests)
  {
    var sent := s.requests + [SubmitRequest(s.editingDeveloper, s.formData)];
    match outcome
    case Failed(message) => s.(error := SaveError(message), success := "", requests := sent)
    case Done =>
      var saved := if s.editingDeveloper.Some? then Updated else Added;
      FetchState(ResetState(s.(error := "", success := saved, requests := sent)), refresh)
  }

  /** The panel never edits a developer with the form closed. */
  ghost predicate Consistent(s: PanelState) {
    s.editingDeveloper.Some? ==> s.showForm
  }

  lemma SubmitKeepsConsistent(s: PanelState, outcome: Outcome, refresh: FetchResult)
    requires Consistent(s)
    ensures Consistent(SubmitState(s, outcome, refresh))
  {
  }

  /** Every save sent while editing a developer updates that developer. */
  lemma EditedSubmitUpdatesRow(row: DeveloperRow, form: FormData)
    ensures SubmitRequest(Some(row), form) == Update(row.id, ShapeRecord(form))
    ensures SubmitRequest(None, form) == Insert(ShapeRecord(form))
  {
  }

  class AdminPanel {
    var developers: seq<DeveloperRow>
    var loading: bool
    var error: string
    var success: string
    var showForm: bool
    var editingDeveloper: Option<DeveloperRow>
    var formData: FormData
    var selectedImage: Option<ImageFile>
    var imagePreview: string
    var requests: seq<WriteRequest>

    function State(): PanelState
      reads this
    {
      PanelState(developers, loading, error, success, showForm, editingDeveloper,
        formData, selectedImage, imagePreview, requests)
    }

    ghost predicate Valid()
      reads this
    {
      Consistent(State())
    }

    constructor()
      ensures State() == InitialPanel()
      ensures Valid()
    {
      developers := [];
      loading := true;
      error := "";
      success := "";
      showForm := false;
      editingDeveloper := None;
      formData := DefaultForm();
      selectedImage := None;
      imagePreview := "";
      requests := [];
    }

    method FetchDevelopers(result: FetchResult)
      requires Valid()
      modifies this
      ensures State() == FetchState(old(State()), result)
      ensures Valid()
    {
      loading := true;
      match result {
        case Fetched(data) =>
          developers := RowsOrEmpty(data);
        case FetchFailed =>
          error := LoadError;
      }
      loading := false;
    }

    /** `handleInputChange`: only the named field of the form changes. */
    method HandleInputChange(name: InputName, value: string)
      requires Valid()
      modifies this
      ensures State() == old(State()).(formData := SetField(old(formData), name, value))
      ensures Get(formData, name) == Entered(name, value)
      ensures forall other :: other != name ==> Get(formData, other) == Get(old(formData), other)
      ensures Valid()
    {
      formData := SetField(formData, name, value);
    }

    /** `handleImageChange`: a refused file sets the error and changes
        nothing else; an accepted one becomes the selected image. */
    method HandleImageChange(file: Option<ImageFile>)
      requires Valid()
      modifies this
      ensures file.None? ==> State() == old(State())
      ensures file.Some? && ImageError(file.value).Some? ==>
        State() == old(State()).(error := ImageError(file.value).value)
      ensures file.Some? && ImageError(file.value).None? ==>
        State() == old(State()).(selectedImage := file)
      ensures Valid()
    {
      if file.Some? {
        var e := ImageError(file.value);
        if e.Some? {
          error := e.value;
          return;
        }
        selectedImage := file;
      }
    }

    /** The `FileReader`'s `onload`: the data URL becomes the preview and the
        form's photo. */
    method ImageLoaded(dataUrl: string)
      requires Valid()
      modifies this
      ensures State() == old(State()).(imagePreview := dataUrl,
        formData := old(formData).(photo_url := dataUrl))
      ensures Valid()
    {
      imagePreview := dataUrl;
      formData := formData.(photo_url := dataUrl);
    }

    method RemoveImage()
      requires Valid()
      modifies this
      ensures State() == old(State()).(selectedImage := None, imagePreview := "",
        formData := old(formData).(photo_url := ""))
      ensures Valid()
    {
      selectedImage := None;
      imagePreview := "";
      formData := formData.(photo_url := "");
    }

    method ResetForm()
      requires Valid()
      modifies this
      ensures State() == ResetState(old(State()))
      ensures Valid()
    {
      formData := DefaultForm();
      selectedImage := None;
      imagePreview := "";
      editingDeveloper := None;
      showForm := false;
    }

    /** The "Add Developer" button. */
    method OpenForm()
      requires Valid()
      modifies this
      ensures State() == old(State()).(showForm := true)
      ensures Valid()
    {
      showForm := true;
    }

    /** The close buttons of the success and error banners. */
    method DismissSuccess()
      requires Valid()
      modifies this
      ensures State() == old(State()).(success := "")
      ensures Valid()
    {
      success := "";
    }

    method DismissError()
      requires Valid()
      modifies this
      ensures State() == old(State()).(error := "")
      ensures Valid()
    {
      error := "";
    }

    /** `handleEdit`: the row becomes the developer being edited, the form
        is filled from it, its photo (if any) becomes the preview, and the
        form opens. */
    method HandleEdit(row: DeveloperRow)
      requires Valid()
      modifies this
      ensures State() == old(State()).(editingDeveloper := Some(row),
        formData := FormFromRow(row), showForm := true,
        imagePreview := if row.photo_url != "" then row.photo_url else old(imagePreview))
      ensures Valid()
    {
      editingDeveloper := Some(row);
      formData := FormFromRow(row);
      if row.photo_url != "" {
        imagePreview := row.photo_url;
      }
      showForm := true;
    }

    method HandleSubmit(outcome: Outcome, refresh: FetchResult)
      requires Valid()
      modifies this
      ensures State() == SubmitState(old(State()), outcome, refresh)
      ensures Valid()
    {
      ghost var before := State();
      error := "";
      success := "";
      var w := SubmitRequest(editingDeveloper, formData);
      requests := requests + [w];
      match outcome {
        case Failed(message) =>
          error := SaveError(message);
        case Done =>
          success := if editingDeveloper.Some? then Updated else Added;
          ghost var saved := State();
          assert saved == before.(error := "", success := success, requests := requests);
          ResetForm();
          FetchDevelopers(refresh);
          assert State() == FetchState(ResetState(saved), refresh);
      }
      SubmitKeepsConsistent(before, outcome, refresh);
    }

    /** `handleDelete`: nothing happens unless the confirmation is accepted;
        then one delete keyed by `id` is sent, and its outcome sets the
        success message and refreshes the list, or sets the delete error. */
    method HandleDelete(id: string, confirmed: bool, outcome: Outcome, refresh: FetchResult)
      requires Valid()
      modifies this
      ensures !confirmed ==> State() == old(State())
      ensures confirmed ==> requests == old(requests) + [Delete(id)]
      ensures confirmed && outcome.Done? ==>
        State() == FetchState(old(State()).(success := Deleted, requests := requests), refresh)
      ensures confirmed && outcome.Failed? ==>
        State() == old(State()).(error := DeleteError, requests := requests)
      ensures Valid()
    {
      if !confirmed {
        return;
      }
      requests := requests + [Delete(id)];
      match outcome {
        case Done =>
          success := Deleted;
          FetchDevelopers(refresh);
        case Failed(_) =>
          error := DeleteError;
      }
    }
  }
}
