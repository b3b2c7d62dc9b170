/**
 * The end user's waste-submission form: a description, a location and two
 * optional file slots. Submitting only shows a notice and clears the form;
 * the page takes no balance operation from the store.
 */
module UserDashboard {
  import opened Wrappers

  /** A file picked in the browser, known here only by its name. */
  datatype File = File(name: string)

  /** The two upload slots. */
  datatype Slot = Image | Video

  datatype UploadForm = UploadForm(description: string, location: string, image: Option<File>, video: Option<File>) {

    /** The file held in a slot. */
    function Get(slot: Slot): Option<File>
    {
      match slot
      case Image => image
      case Video => video
    }
  }

  /** The form as it starts, and as a submission leaves it. */
  const EmptyForm := UploadForm("", "", None, None)

  /** Putting a picked file into its slot; the other slot and the text fields keep their values. */
  function HandleFileUpload(form: UploadForm, slot: Slot, file: File): (r: UploadForm)
    ensures r.Get(slot) == Some(file)
    ensures forall other: Slot :: other != slot ==> r.Get(other) == form.Get(other)
    ensures r.description == form.description && r.location == form.location
  {
    match slot
    case Image => form.(image := Some(file))
    case Video => form.(video := Some(file))
  }

  /** Typing into the location field. */
  function EditLocation(form: UploadForm, text: string): (r: UploadForm)
    ensures r.location == text && r.(location := form.location) == form
  {
    form.(location := text)
  }

  /** Typing into the description field. */
  function EditDescription(form: UploadForm, text: string): (r: UploadForm)
    ensures r.description == text && r.(description := form.description) == form
  {
    form.(description := text)
  }

  /**
   * Submitting: there is no validation, so every form, the empty one
   * included, is accepted; the notice is shown and the form is cleared.
   */
  function HandleSubmit(form: UploadForm): (r: UploadForm)
    ensures r.description == "" && r.location == ""
    ensures forall slot: Slot :: r.Get(slot).None?
  {
    EmptyForm
  }

  /** What is submitted leaves no trace: any two forms submit to the same result. */
  lemma SubmitForgetsInput(a: UploadForm, b: UploadForm)
    ensures HandleSubmit(a) == HandleSubmit(b)
  {
  }

  /** Uploading into a slot twice keeps only the second file. */
  lemma UploadOverwrites(form: UploadForm, slot: Slot, f: File, g: File)
    ensures HandleFileUpload(HandleFileUpload(form, slot, f), slot, g) == HandleFileUpload(form, slot, g)
  {
  }

  /** Uploads into different slots commute. */
  lemma UploadsCommute(form: UploadForm, f: File, g: File)
    ensures HandleFileUpload(HandleFileUpload(form, Image, f), Video, g)
         == HandleFileUpload(HandleFileUpload(form, Video, g), Image, f)
  {
  }
}
