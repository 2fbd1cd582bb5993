/** The image picker. The selected file and its preview URL are the App's
    state; the uploader writes them through the two setters it is given,
    which is modelled by both components sharing one `ImageState` object. The
    uploader's own state is the value of its hidden file input. */
module ImageUploader {
  import opened Wrappers

  /** A file the browser hands over; its bytes are read only by the encoder,
      which is outside this model. */
  datatype File = File(name: string, mimeType: string, size: nat)

  /** The pair (`imageFile`, `imagePreviewUrl`). */
  datatype Selection = Selection(file: Option<File>, previewUrl: Option<string>)

  function NoSelection(): Selection { Selection(None, None) }

  /** A file is held exactly when a preview URL is. */
  predicate Paired(s: Selection)
  {
    s.file.None? <==> s.previewUrl.None?
  }

  /** `handleImageChange`: `files` is `event.target.files` (`None` for
      `null`) and `objectUrl` what `URL.createObjectURL` returns for the
      first file. A change without files leaves the selection as it was;
      otherwise file and preview are set together. */
  function OnImageChange(sel: Selection, files: Option<seq<File>>, objectUrl: string): (r: Selection)
    ensures files.None? || files.value == [] ==> r == sel
    ensures files.Some? && files.value != [] ==> r.file == Some(files.value[0]) && r.previewUrl == Some(objectUrl)
  {
    match files
    case None => sel
    case Some(fs) => if fs == [] then sel else Selection(Some(fs[0]), Some(objectUrl))
  }

  /** Both transitions keep a file and its preview together. */
  lemma TransitionsKeepPaired(sel: Selection, files: Option<seq<File>>, objectUrl: string)
    requires Paired(sel)
    ensures Paired(OnImageChange(sel, files, objectUrl))
    ensures Paired(NoSelection())
  {
  }

  /** Only the first chosen file counts; the rest are ignored. */
  lemma OnlyFirstFileTaken(sel: Selection, first: File, rest: seq<File>, objectUrl: string)
    ensures OnImageChange(sel, Some([first] + rest), objectUrl) == OnImageChange(sel, Some([first]), objectUrl)
    ensures OnImageChange(sel, Some([first] + rest), objectUrl).file == Some(first)
  {
  }

  /** What the uploader shows: the upload prompt while the preview is falsy,
      otherwise the preview with its remove button. */
  datatype View = UploadPrompt | PreviewWithRemove(url: string)

  function Render(previewUrl: Option<string>): (v: View)
    ensures v.UploadPrompt? <==> previewUrl.None? || previewUrl.value == ""
    ensures v.PreviewWithRemove? ==> previewUrl == Some(v.url)
  {
    match previewUrl
    case Some(url) => if url == "" then UploadPrompt else PreviewWithRemove(url)
    case None => UploadPrompt
  }

  /** Choosing a file shows its preview; removing it brings back the prompt. */
  lemma SelectShowsPreviewRemoveShowsPrompt(sel: Selection, first: File, rest: seq<File>, objectUrl: string)
    requires objectUrl != ""
    ensures Render(OnImageChange(sel, Some([first] + rest), objectUrl).previewUrl) == PreviewWithRemove(objectUrl)
    ensures Render(NoSelection().previewUrl) == UploadPrompt
  {
  }

  /** The App's `imageFile` and `imagePreviewUrl` hooks. */
  class ImageState {
    var file: Option<File>
    var previewUrl: Option<string>

    function Value(): Selection
      reads this
    {
      Selection(file, previewUrl)
    }

    constructor()
      ensures Value() == NoSelection()
    {
      file := None;
      previewUrl := None;
    }
  }

  /** The mounted uploader: the shared image state and the file input. The
      input is always rendered, so its ref is attached whenever a handler
      runs. */
  class Uploader {
    const state: ImageState
    var inputValue: string

    constructor(state: ImageState)
      ensures this.state == state && inputValue == ""
    {
      this.state := state;
      inputValue := "";
    }

    /** A change event on the input. Before the handler runs the browser has
        already given the input its new value, `path`, the name of what the
        user chose (empty when the choice was cancelled). */
    method HandleImageChange(files: Option<seq<File>>, objectUrl: string, path: string)
      modifies this, state
      ensures state.Value() == OnImageChange(old(state.Value()), files, objectUrl)
      ensures inputValue == path
    {
      inputValue := path;
      if files.Some? && files.value != [] {
        var file := files.value[0];
        state.file := Some(file);
        state.previewUrl := Some(objectUrl);
      }
    }

    /** Clears file and preview together and empties the input. A browser
        fires a change event only when the input's value changes, so after
        this any file chosen, the removed one included, is reported. */
    method HandleRemoveImage()
      modifies this, state
      ensures state.Value() == NoSelection()
      ensures inputValue == ""
    {
      state.file := None;
      state.previewUrl := None;
      inputValue := "";
    }
  }
}
