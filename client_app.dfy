/** The client component's state and its event handlers (src/App.js). Each
    `useState` hook is a field of `App`; each handler is a method that performs
    the same state updates in the same order. The network call of the submit
    handler is replaced by its outcome, passed in as a `Reply`. */
module ClientApp {
  import opened Common
  import opened ResultFilter

  const PdfType: string := "application/pdf"
  const NoFileMessage: string := "Please select a file first"
  const SelectPdfMessage: string := "Please select a PDF file"
  const DropPdfMessage: string := "Please upload a PDF file"
  const GenericUploadMessage: string := "Error uploading file. Please try again."
  const NoResponseMessage: string := "No response from server. Please try again."

  /** A file picked in the browser, with the MIME type the browser reports. */
  datatype SelectedFile = SelectedFile(name: string, mimeType: string)

  /** The JSON body of a server reply, as far as the handler reads it: an array
      of jobs, an object whose `error` is a string, or `null`. */
  datatype ReplyData = JobArray(jobs: seq<Job>) | ErrorObject(error: string) | NullData

  /** How `axios.post` settles: resolved with a 2xx reply, rejected with a non-2xx
      reply (`err.response`), rejected without any reply (`err.request`, which
      includes the 30-second timeout), or rejected before a request was made. */
  datatype Reply =
    | Fulfilled(data: ReplyData)
    | Rejected(data: ReplyData)
    | NoResponse
    | RequestNotSent

  /** A resolved reply whose body is an object with a falsy `error` would be
      stored as the recommendation list; the server never sends one (see
      UploadServer.ClassifyShaped), and the model leaves it out. */
  predicate StorableReply(reply: Reply) {
    !(reply.Fulfilled? && reply.data.ErrorObject? && reply.data.error == "")
  }

  /** What the submit handler leaves in the `error` and `recommendations` state
      once the request has settled. */
  datatype SubmitOutcome = SubmitOutcome(error: Option<string>, recommendations: seq<Job>)

  /** Lines 81-106 after `setError(null)` and `setRecommendations([])`:
      a 2xx array is shown; a 2xx object shows its `error`; a `null` 2xx body
      throws inside the `try`, and the `catch` shows the generic message; a
      non-2xx reply shows its `error` or the generic message; no reply shows the
      no-response message. Reading `.error` of a `null` non-2xx body throws
      inside the `catch`: the exception escapes and the state keeps the cleared
      values. */
  function AfterReply(reply: Reply): (r: SubmitOutcome)
    requires StorableReply(reply)
    ensures r.error.Some? ==> r.recommendations == [] && r.error.value != ""
    ensures r.recommendations != [] ==> reply == Fulfilled(JobArray(r.recommendations))
    ensures reply.Fulfilled? && reply.data.JobArray? ==> r == SubmitOutcome(None, reply.data.jobs)
    ensures reply.NoResponse? ==> r.error == Some(NoResponseMessage)
    ensures reply.RequestNotSent? || reply == Fulfilled(NullData) ==> r.error == Some(GenericUploadMessage)
    ensures ((reply.Fulfilled? || reply.Rejected?) && reply.data.ErrorObject? && reply.data.error != "")
      ==> r.error == Some(reply.data.error)
    ensures reply.Rejected? && reply.data.JobArray? ==> r.error == Some(GenericUploadMessage)
    ensures reply == Rejected(ErrorObject("")) ==> r.error == Some(GenericUploadMessage)
    ensures reply == Rejected(NullData) ==> r == SubmitOutcome(None, [])
  {
    match reply
    case Fulfilled(data) =>
      (match data
       case NullData => SubmitOutcome(Some(GenericUploadMessage), [])
       case ErrorObject(e) => SubmitOutcome(Some(e), [])
       case JobArray(jobs) => SubmitOutcome(None, jobs))
    case Rejected(data) =>
      (match data
       case NullData => SubmitOutcome(None, [])
       case ErrorObject(e) => SubmitOutcome(Some(if e != "" then e else GenericUploadMessage), [])
       case JobArray(_) => SubmitOutcome(Some(GenericUploadMessage), []))
    case NoResponse => SubmitOutcome(Some(NoResponseMessage), [])
    case RequestNotSent => SubmitOutcome(Some(GenericUploadMessage), [])
  }

  /** Every reply that carries something to say leaves the user looking at
      either a message or a non-empty list, never both. */
  lemma SubmitAlwaysReports(reply: Reply)
    requires StorableReply(reply)
    requires reply != Rejected(NullData) && reply != Fulfilled(JobArray([]))
    ensures AfterReply(reply).error.Some? != (AfterReply(reply).recommendations != [])
  {
  }

  class App {
    var file: Option<SelectedFile>
    var loading: bool
    var error: Option<string>
    var recommendations: seq<Job>
    var uploadProgress: int
    var searchQuery: string
    var selectedSkills: seq<string>

    /** The initial values of the `useState` hooks. */
    constructor ()
      ensures file == None && !loading && error == None && recommendations == []
      ensures uploadProgress == 0 && searchQuery == "" && selectedSkills == []
    {
      file := None;
      loading := false;
      error := None;
      recommendations := [];
      uploadProgress := 0;
      searchQuery := "";
      selectedSkills := [];
    }

    /** `handleFileChange`: a PDF replaces the selection and clears the error;
        anything else (or nothing) clears the selection and shows a message. */
    method HandleFileChange(selected: Option<SelectedFile>)
      modifies this`file, this`error
      ensures selected.Some? && selected.value.mimeType == PdfType ==> file == selected && error == None
      ensures !(selected.Some? && selected.value.mimeType == PdfType) ==>
                file == None && error == Some(SelectPdfMessage)
    {
      if selected.Some? && selected.value.mimeType == PdfType {
        file := selected;
        error := None;
      } else {
        file := None;
        error := Some(SelectPdfMessage);
      }
    }

    /** `handleDrop`: a dropped PDF replaces the selection; anything else shows a
        message but, unlike `handleFileChange`, keeps the previous selection. */
    method HandleDrop(dropped: Option<SelectedFile>)
      modifies this`file, this`error
      ensures dropped.Some? && dropped.value.mimeType == PdfType ==> file == dropped && error == None
      ensures !(dropped.Some? && dropped.value.mimeType == PdfType) ==>
                file == old(file) && error == Some(DropPdfMessage)
    {
      if dropped.Some? && dropped.value.mimeType == PdfType {
        file := dropped;
        error := None;
      } else {
        error := Some(DropPdfMessage);
      }
    }

    /** `handleSkillClick`. */
    method HandleSkillClick(skill: string)
      modifies this`selectedSkills
      ensures selectedSkills == ToggleSkill(old(selectedSkills), skill)
    {
      selectedSkills := ToggleSkill(selectedSkills, skill);
    }

    /** `handleSearchChange`: the query is stored exactly as typed. */
    method HandleSearchChange(value: string)
      modifies this`searchQuery
      ensures searchQuery == value
    {
      searchQuery := value;
    }

    /** `filteredJobs`, recomputed from the current state on every render. */
    function ShownJobs(): seq<Job>
      reads this
    {
      FilteredJobs(recommendations, searchQuery, selectedSkills)
    }

    /** `handleSubmit`. Without a selected file it only shows a message and posts
        nothing. Otherwise it posts the file and, once the reply has settled,
        `loading` is false, the progress is back to 0, and the error and the list
        are those of `AfterReply`. Returns whether a request was posted. */
    method HandleSubmit(reply: Reply) returns (posted: bool)
      requires StorableReply(reply)
      modifies this`loading, this`error, this`recommendations, this`uploadProgress
      ensures posted <==> old(file).Some?
      ensures !posted ==> error == Some(NoFileMessage) && loading == old(loading)
                          && recommendations == old(recommendations)
                          && uploadProgress == old(uploadProgress)
      ensures posted ==> !loading && uploadProgress == 0
                         && error == AfterReply(reply).error
                         && recommendations == AfterReply(reply).recommendations
    {
      if file.None? {
        error := Some(NoFileMessage);
        return false;
      }
      posted := true;
      loading := true;
      error := None;
      recommendations := [];
      uploadProgress := 0;
      match reply {
        case Fulfilled(data) =>
          match data {
            case JobArray(jobs) => recommendations := jobs;
            case ErrorObject(e) => error := Some(e);
            case NullData => error := Some(GenericUploadMessage);
          }
        case Rejected(data) =>
          match data {
            case ErrorObject(e) => error := Some(if e != "" then e else GenericUploadMessage);
            case JobArray(_) => error := Some(GenericUploadMessage);
            case NullData =>
          }
        case NoResponse => error := Some(NoResponseMessage);
        case RequestNotSent => error := Some(GenericUploadMessage);
      }
      loading := false;
      uploadProgress := 0;
    }
  }
}
