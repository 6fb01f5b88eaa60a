/** The `/upload` route of the backend (job-recommender-backend/server.js): the
    multer configuration (stored name, PDF filter, 5 MB limit), the fixed-order
    checks before the worker is started, and the per-invocation handling of the
    worker's output streams and its `close` and `error` events.

    The file system is a set of existing paths, `Date.now()` is a parameter, the
    child process is the sequence of events it delivers, and `JSON.parse` is a
    function from text to an optional JSON value. */
module UploadServer {
  import opened Common
  import opened JsonValue

  const PdfMimeType: string := "application/pdf"
  const UploadField: string := "resume"
  /** `limits.fileSize`: 5 MB. */
  const MaxFileSize: nat := 5 * 1024 * 1024
  const RequiredFiles: seq<string> := ["linkdindata.csv"]

  /** The directories derived from `__dirname` (the backend directory `root`). */
  function UploadsDir(root: string): string { JoinPath(root, "uploads") }
  function DataDir(root: string): string { JoinPath(root, "data") }
  function ScriptPath(root: string): string { JoinPath(JoinPath(root, "scripts"), "process_resume.py") }

  /** One HTTP reply: `res.status(status).json(body)`. */
  datatype Response = Response(status: nat, body: Json)

  // ---------------------------------------------------------------------------
  // multer: storage name, file filter, size limit

  /** The file part of the multipart form, as the client sent it. */
  datatype UploadPart = UploadPart(fieldName: string, originalName: string, mimeType: string, size: nat)

  /** `req.file` after multer stored the part. */
  datatype StoredFile = StoredFile(fileName: string, path: string, mimeType: string, size: nat)

  /** The error multer hands to the route's callback: its own `MulterError` with a
      code, or the plain `Error` that the file filter raised. */
  datatype UploadError = MulterError(code: string) | PlainError(message: string)

  /** What multer passes on: the error argument and `req.file`. */
  datatype Received = Received(err: Option<UploadError>, file: Option<StoredFile>)

  /** `Date.now() + '-' + file.originalname`. */
  function StoredName(now: nat, originalName: string): (r: string)
    ensures |r| > |originalName| && r[|r| - |originalName|..] == originalName
    ensures r[..|r| - |originalName|] == Decimal(now) + "-"
  {
    Decimal(now) + "-" + originalName
  }

  /** The stored name determines the time stamp and the original name: two
      uploads get the same stored name only with the same time stamp and the same
      original name. */
  lemma StoredNameInjective(now1: nat, name1: string, now2: nat, name2: string)
    requires StoredName(now1, name1) == StoredName(now2, name2)
    ensures now1 == now2 && name1 == name2
  {
    var d1, d2 := Decimal(now1), Decimal(now2);
    var r := StoredName(now1, name1);
    assert r == d1 + "-" + name1 == d2 + "-" + name2;
    assert r[|d1|] == '-' && r[|d2|] == '-';
    assert forall i :: 0 <= i < |d1| ==> IsDigit(r[i]);
    assert forall i :: 0 <= i < |d2| ==> IsDigit(r[i]);
    assert |d1| == |d2|;
    assert d1 == r[..|d1|] == d2;
    DecimalInjective(now1, now2);
    assert name1 == r[|d1| + 1..] == name2;
  }

  /** `fileFilter`: only the PDF MIME type is accepted. */
  function FileFilter(mimeType: string): (r: Option<UploadError>)
    ensures r.None? <==> mimeType == PdfMimeType
    ensures r.Some? ==> r.value == PlainError("Only PDF files are allowed")
  {
    if mimeType == PdfMimeType then None else Some(PlainError("Only PDF files are allowed"))
  }

  /** `multer({storage, fileFilter, limits}).single('resume')` on one request. A
      part under another field name is multer's `LIMIT_UNEXPECTED_FILE`, checked
      before the filter; the filter runs before anything is written; a part over
      the size limit is cut off while it is written and is not kept. */
  function ReceiveUpload(root: string, now: nat, part: Option<UploadPart>): (r: Received)
    ensures r.file.Some? <==> part.Some? && part.value.fieldName == UploadField
                               && part.value.mimeType == PdfMimeType && part.value.size <= MaxFileSize
    ensures r.err.Some? <==> part.Some? && r.file.None?
    ensures part.Some? && part.value.fieldName != UploadField ==> r.err == Some(MulterError("LIMIT_UNEXPECTED_FILE"))
    ensures r.file.Some? ==> r.file.value.path == JoinPath(UploadsDir(root), r.file.value.fileName)
                             && r.file.value.fileName == StoredName(now, part.value.originalName)
    ensures (part.Some? && part.value.fieldName == UploadField && part.value.mimeType != PdfMimeType)
              ==> r.err == FileFilter(part.value.mimeType)
    ensures (part.Some? && part.value.fieldName == UploadField && part.value.mimeType == PdfMimeType
             && part.value.size > MaxFileSize) ==> r.err == Some(MulterError("LIMIT_FILE_SIZE"))
  {
    match part
    case None => Received(None, None)
    case Some(p) =>
      if p.fieldName != UploadField then Received(Some(MulterError("LIMIT_UNEXPECTED_FILE")), None)
      else if FileFilter(p.mimeType).Some? then Received(FileFilter(p.mimeType), None)
      else if p.size > MaxFileSize then Received(Some(MulterError("LIMIT_FILE_SIZE")), None)
      else
        var name := StoredName(now, p.originalName);
        Received(None, Some(StoredFile(name, JoinPath(UploadsDir(root), name), p.mimeType, p.size)))
  }

  // ---------------------------------------------------------------------------
  // The checks before the worker starts

  /** The route's first decision: answer at once, or spawn the worker on the file. */
  datatype Dispatch = Respond(response: Response) | Spawn(file: StoredFile)

  /** Lines 91-101: the reply for an upload error. */
  function UploadErrorResponse(e: UploadError): (r: Response)
    ensures r.status == 400
    ensures e == MulterError("LIMIT_FILE_SIZE") ==> r.body == ErrorBody("File size is too large. Maximum size is 5MB.")
    ensures e.MulterError? && e.code != "LIMIT_FILE_SIZE" ==> r.body == ErrorBody("Error uploading file")
    ensures e.PlainError? ==> r.body == ErrorBody(e.message)
  {
    match e
    case MulterError(code) =>
      Response(400, ErrorBody(if code == "LIMIT_FILE_SIZE" then "File size is too large. Maximum size is 5MB."
                              else "Error uploading file"))
    case PlainError(message) => Response(400, ErrorBody(message))
  }

  /** The first of `names` that does not exist in `dir` (the loop of lines 109-116). */
  function FirstMissing(names: seq<string>, dir: string, fs: set<string>): (r: Option<string>)
    ensures r.None? <==> forall i :: 0 <= i < |names| ==> JoinPath(dir, names[i]) in fs
    ensures r.Some? ==> exists i :: 0 <= i < |names| && names[i] == r.value && JoinPath(dir, r.value) !in fs
                          && forall j :: 0 <= j < i ==> JoinPath(dir, names[j]) in fs
  {
    if names == [] then None
    else if JoinPath(dir, names[0]) !in fs then Some(names[0])
    else
      var rest := FirstMissing(names[1..], dir, fs);
      if rest.Some? then
        assert exists i :: 0 <= i < |names[1..]| && names[1..][i] == rest.value && JoinPath(dir, rest.value) !in fs
                           && forall j :: 0 <= j < i ==> JoinPath(dir, names[1..][j]) in fs;
        var i :| 0 <= i < |names[1..]| && names[1..][i] == rest.value && JoinPath(dir, rest.value) !in fs
                 && forall j :: 0 <= j < i ==> JoinPath(dir, names[1..][j]) in fs;
        assert names[i + 1] == rest.value;
        assert forall j :: 0 <= j < i + 1 ==> JoinPath(dir, names[j]) in fs by {
          forall j | 0 <= j < i + 1 ensures JoinPath(dir, names[j]) in fs {
            if j > 0 { assert names[j] == names[1..][j - 1]; }
          }
        }
        rest
      else
        assert forall i :: 0 <= i < |names| ==> JoinPath(dir, names[i]) in fs by {
          forall i | 0 <= i < |names| ensures JoinPath(dir, names[i]) in fs {
            if i > 0 { assert names[i] == names[1..][i - 1]; }
          }
        }
        None
  }

  function MissingFileMessage(name: string): string {
    "Required file " + name + " not found. Please ensure all required files are present."
  }

  /** Lines 90-136 up to `spawn`: upload error (400), no file (400), a missing
      required data file (500), a missing worker script (500), in that order; only
      when all four checks pass is the worker spawned, on the stored file. */
  function HandleUpload(root: string, fs: set<string>, received: Received): (d: Dispatch)
    ensures d.Spawn? <==> received.err.None? && received.file.Some?
                          && JoinPath(DataDir(root), "linkdindata.csv") in fs && ScriptPath(root) in fs
    ensures d.Spawn? ==> d.file == received.file.value
    ensures received.err.Some? ==> d == Respond(UploadErrorResponse(received.err.value))
    ensures received.err.None? && received.file.None? ==> d == Respond(Response(400, ErrorBody("No file uploaded")))
    ensures (received.err.None? && received.file.Some? && JoinPath(DataDir(root), "linkdindata.csv") !in fs)
              ==> d == Respond(Response(500, ErrorBody(MissingFileMessage("linkdindata.csv"))))
    ensures (received.err.None? && received.file.Some? && JoinPath(DataDir(root), "linkdindata.csv") in fs
             && ScriptPath(root) !in fs) ==> d == Respond(Response(500, ErrorBody("Processing script not found")))
  {
    if received.err.Some? then Respond(UploadErrorResponse(received.err.value))
    else if received.file.None? then Respond(Response(400, ErrorBody("No file uploaded")))
    else
      var missing := FirstMissing(RequiredFiles, DataDir(root), fs);
      if missing.Some? then
        assert missing.value == "linkdindata.csv";
        Respond(Response(500, ErrorBody(MissingFileMessage(missing.value))))
      else if ScriptPath(root) !in fs then Respond(Response(500, ErrorBody("Processing script not found")))
      else Spawn(received.file.value)
  }

  /** Whatever the part, a non-PDF file under the right field is answered with
      400 "Only PDF files are allowed", and one over 5 MB with 400 "File size is
      too large...", whether or not the data files and the script exist; neither
      reaches the worker. */
  lemma RejectedUploads(root: string, fs: set<string>, now: nat, part: UploadPart)
    requires part.fieldName == UploadField
    ensures part.mimeType != PdfMimeType ==>
              HandleUpload(root, fs, ReceiveUpload(root, now, Some(part)))
              == Respond(Response(400, ErrorBody("Only PDF files are allowed")))
    ensures part.mimeType == PdfMimeType && part.size > MaxFileSize ==>
              HandleUpload(root, fs, ReceiveUpload(root, now, Some(part)))
              == Respond(Response(400, ErrorBody("File size is too large. Maximum size is 5MB.")))
    ensures part.mimeType == PdfMimeType && part.size <= MaxFileSize
            && JoinPath(DataDir(root), "linkdindata.csv") in fs && ScriptPath(root) in fs ==>
              HandleUpload(root, fs, ReceiveUpload(root, now, Some(part))).Spawn?
  {
  }

  // ---------------------------------------------------------------------------
  // The worker's exit and its output

  /** `s.split('\n')[0]`: the text before the first line feed, or all of it. */
  function FirstLine(s: string): (r: string)
    ensures r <= s && '\n' !in r
    ensures |r| < |s| ==> s[|r|] == '\n'
  {
    if s == [] || s[0] == '\n' then [] else [s[0]] + FirstLine(s[1..])
  }

  const ProcessingFailed: string := "Error processing resume"
  const ResultsFailed: string := "Error processing resume results"
  const NoRecommendations: string := "No job recommendations found"

  /** The `close` handler after the unlink (lines 161-185). A code other than 0
      (including `null`, for a worker killed by a signal) is a 500 whose details
      are the first line of stderr; stdout is then ignored. With code 0, stdout
      that does not parse, or parses to `null` (whose `.error` throws), is a 500;
      a truthy `error` property is a 400 carrying that value unchanged; a value
      that is not a non-empty array is a 400; a non-empty array is sent as is. */
  function Classify(code: Option<int>, stderr: string, parsed: Option<Json>): (r: Response)
    ensures code != Some(0) ==> r == Response(500, ErrorDetailsBody(ProcessingFailed, FirstLine(stderr)))
    ensures code == Some(0) && (parsed.None? || parsed == Some(JNull)) ==>
              r == Response(500, ErrorDetailsBody(ResultsFailed, "Invalid response format"))
    ensures code == Some(0) && parsed.Some? && parsed.value.JObj? && "error" in parsed.value.fields
            && Truthy(parsed.value.fields["error"]) ==>
              r == Response(400, JObj(map["error" := parsed.value.fields["error"]]))
    ensures r.status == 200 <==> code == Some(0) && parsed.Some? && parsed.value.JArr? && |parsed.value.items| > 0
    ensures r.status == 200 ==> r.body == parsed.value
    ensures (code == Some(0) && parsed.Some? && parsed.value != JNull && !parsed.value.JArr?
             && !(parsed.value.JObj? && "error" in parsed.value.fields && Truthy(parsed.value.fields["error"])))
              ==> r == Response(400, ErrorBody(NoRecommendations))
  {
    if code != Some(0) then
      Response(500, ErrorDetailsBody(ProcessingFailed, FirstLine(stderr)))
    else if parsed.None? || parsed.value.JNull? then
      Response(500, ErrorDetailsBody(ResultsFailed, "Invalid response format"))
    else
      var v := parsed.value;
      var err := Prop(v, "error");
      if err.Some? && Truthy(err.value) then Response(400, JObj(map["error" := err.value]))
      else if !v.JArr? || |v.items| == 0 then Response(400, ErrorBody(NoRecommendations))
      else Response(200, v)
  }

  /** The `error` handler: the worker could not be started. */
  const LaunchFailure: Response := Response(500, ErrorDetailsBody("Failed to process resume", "Could not start processing"))

  /** Every reply the route can send has a stable shape: 200 with a non-empty
      array, or 400/500 with an object whose `error` is truthy. */
  ghost predicate WellShaped(r: Response) {
    if r.status == 200 then r.body.JArr? && |r.body.items| > 0
    else (r.status == 400 || r.status == 500) && r.body.JObj? && "error" in r.body.fields
         && Truthy(r.body.fields["error"])
  }

  /** Every immediate reply of the route is a 400 or a 500 with a non-empty
      `error`, provided a filter error carries a message. */
  lemma UploadRepliesShaped(root: string, fs: set<string>, received: Received)
    requires received.err.Some? && received.err.value.PlainError? ==> received.err.value.message != ""
    ensures HandleUpload(root, fs, received).Respond? ==> WellShaped(HandleUpload(root, fs, received).response)
  {
  }

  /** Every reply of the `close` handler is a non-empty array with 200, or an
      error object with 400 or 500. */
  lemma ClassifyShaped(code: Option<int>, stderr: string, parsed: Option<Json>)
    ensures WellShaped(Classify(code, stderr, parsed))
  {
    var r := Classify(code, stderr, parsed);
    if code == Some(0) && parsed.Some? && parsed.value != JNull {
      var err := Prop(parsed.value, "error");
      if err.Some? && Truthy(err.value) {
        assert r.body.fields["error"] == err.value;
      }
    }
  }

  lemma LaunchFailureShaped()
    ensures WellShaped(LaunchFailure)
  {
  }

  // ---------------------------------------------------------------------------
  // One worker invocation as an event machine

  /** What the child process delivers to the route's listeners. */
  datatype ChildEvent =
    | StdoutData(chunk: string)
    | StderrData(chunk: string)
    | Close(code: Option<int>)
    | SpawnError

  /** The listeners' state: the two accumulators (`result`, `error`), the paths
      passed to `fs.unlink`, and every reply the handlers tried to send. */
  datatype InvocationState = InvocationState(
    result: string, error: string, unlinked: seq<string>, responses: seq<Response>)

  /** One listener call. `close` unlinks the upload first (an unlink failure is
      only logged), then replies by `Classify`; `error` replies without unlinking. */
  function Step(path: string, parse: string -> Option<Json>, st: InvocationState, e: ChildEvent): InvocationState {
    match e
    case StdoutData(chunk) => st.(result := st.result + chunk)
    case StderrData(chunk) => st.(error := st.error + chunk)
    case Close(code) =>
      st.(unlinked := st.unlinked + [path],
          responses := st.responses + [Classify(code, st.error, parse(st.result))])
    case SpawnError => st.(responses := st.responses + [LaunchFailure])
  }

  /** The listeners' state after a sequence of events, in delivery order. */
  function Run(path: string, parse: string -> Option<Json>, st: InvocationState, events: seq<ChildEvent>): InvocationState
    decreases |events|
  {
    if events == [] then st else Run(path, parse, Step(path, parse, st, events[0]), events[1..])
  }

  /** The concatenation of the chunks one stream delivered, in order. */
  function StdoutOf(events: seq<ChildEvent>): string {
    if events == [] then "" else (if events[0].StdoutData? then events[0].chunk else "") + StdoutOf(events[1..])
  }

  function StderrOf(events: seq<ChildEvent>): string {
    if events == [] then "" else (if events[0].StderrData? then events[0].chunk else "") + StderrOf(events[1..])
  }

  function CloseCount(events: seq<ChildEvent>): nat {
    if events == [] then 0 else (if events[0].Close? then 1 else 0) + CloseCount(events[1..])
  }

  function ReplyCount(events: seq<ChildEvent>): nat {
    if events == [] then 0 else (if events[0].Close? || events[0].SpawnError? then 1 else 0) + ReplyCount(events[1..])
  }

  /** The two accumulators are the in-order concatenations of their own stream's
      chunks; neither stream touches the other's accumulator. Every `close`
      unlinks the upload's path once, and every `close` or `error` adds exactly
      one reply attempt. */
  lemma {:induction false} RunAccumulates(path: string, parse: string -> Option<Json>, st: InvocationState,
                                          events: seq<ChildEvent>)
    ensures Run(path, parse, st, events).result == st.result + StdoutOf(events)
    ensures Run(path, parse, st, events).error == st.error + StderrOf(events)
    ensures |Run(path, parse, st, events).unlinked| == |st.unlinked| + CloseCount(events)
    ensures forall i :: |st.unlinked| <= i < |Run(path, parse, st, events).unlinked| ==>
                        Run(path, parse, st, events).unlinked[i] == path
    ensures Run(path, parse, st, events).unlinked[..|st.unlinked|] == st.unlinked
    ensures |Run(path, parse, st, events).responses| == |st.responses| + ReplyCount(events)
    ensures Run(path, parse, st, events).responses[..|st.responses|] == st.responses
    decreases |events|
  {
    if events != [] {
      var next := Step(path, parse, st, events[0]);
      RunAccumulates(path, parse, next, events[1..]);
      var fin := Run(path, parse, st, events);
      assert fin == Run(path, parse, next, events[1..]);
      assert fin.unlinked[..|st.unlinked|] == fin.unlinked[..|next.unlinked|][..|st.unlinked|];
      assert fin.responses[..|st.responses|] == fin.responses[..|next.responses|][..|st.responses|];
    }
  }

  /** The listeners' starting state. */
  const Fresh: InvocationState := InvocationState("", "", [], [])

  /** A worker that writes its output and then closes: the upload is unlinked
      exactly once and exactly one reply is sent, the one `Classify` gives for the
      exit code, the whole of stderr and the whole of stdout. */
  lemma NormalRun(path: string, parse: string -> Option<Json>, output: seq<ChildEvent>, code: Option<int>)
    requires forall i :: 0 <= i < |output| ==> output[i].StdoutData? || output[i].StderrData?
    ensures Run(path, parse, Fresh, output + [Close(code)]).unlinked == [path]
    ensures Run(path, parse, Fresh, output + [Close(code)]).responses
            == [Classify(code, StderrOf(output), parse(StdoutOf(output)))]
  {
    var mid := Run(path, parse, Fresh, output);
    RunAccumulates(path, parse, Fresh, output);
    OnlyOutput(output);
    RunSplit(path, parse, Fresh, output, [Close(code)]);
    assert mid.result == StdoutOf(output) && mid.error == StderrOf(output);
    assert mid.unlinked == [] && mid.responses == [];
    assert Run(path, parse, mid, [Close(code)]) == Step(path, parse, mid, Close(code));
  }

  lemma {:induction false} OnlyOutput(output: seq<ChildEvent>)
    requires forall i :: 0 <= i < |output| ==> output[i].StdoutData? || output[i].StderrData?
    ensures CloseCount(output) == 0 && ReplyCount(output) == 0
  {
    if output != [] {
      OnlyOutput(output[1..]);
    }
  }

  lemma {:induction false} RunSplit(path: string, parse: string -> Option<Json>, st: InvocationState,
                                    a: seq<ChildEvent>, b: seq<ChildEvent>)
    ensures Run(path, parse, st, a + b) == Run(path, parse, Run(path, parse, st, a), b)
    decreases |a|
  {
    if a != [] {
      assert (a + b)[1..] == a[1..] + b;
      RunSplit(path, parse, Step(path, parse, st, a[0]), a[1..], b);
    } else {
      assert a + b == b;
    }
  }

  /** A worker that cannot be started: one 500 reply and no unlink. */
  lemma LaunchFailureRun(path: string, parse: string -> Option<Json>)
    ensures Run(path, parse, Fresh, [SpawnError]) == InvocationState("", "", [], [LaunchFailure])
  {
  }

  /** Nothing makes `error` and `close` exclusive: if both fire, the route tries
      to reply twice and unlinks once. */
  lemma ErrorThenClose(path: string, parse: string -> Option<Json>)
    ensures Run(path, parse, Fresh, [SpawnError, Close(None)]).responses
            == [LaunchFailure, Response(500, ErrorDetailsBody(ProcessingFailed, ""))]
    ensures Run(path, parse, Fresh, [SpawnError, Close(None)]).unlinked == [path]
  {
    assert [SpawnError, Close(None)][1..] == [Close(None)];
  }

  /** The state of one request's listeners. */
  class Invocation {
    /** `req.file.path`. */
    const path: string
    /** `JSON.parse`, as a function from text to a value (None: it throws). */
    const parse: string -> Option<Json>
    var result: string
    var error: string
    var unlinked: seq<string>
    var responses: seq<Response>

    function State(): InvocationState
      reads this
    {
      InvocationState(result, error, unlinked, responses)
    }

    /** Lines 138-139, right after `spawn`. */
    constructor (path: string, parse: string -> Option<Json>)
      ensures this.path == path && this.parse == parse && State() == Fresh
    {
      this.path := path;
      this.parse := parse;
      result := "";
      error := "";
      unlinked := [];
      responses := [];
    }

    /** `pythonProcess.stdout.on("data")`. */
    method OnStdout(chunk: string)
      modifies this
      ensures State() == Step(path, parse, old(State()), StdoutData(chunk))
    {
      result := result + chunk;
    }

    /** `pythonProcess.stderr.on("data")`. */
    method OnStderr(chunk: string)
      modifies this
      ensures State() == Step(path, parse, old(State()), StderrData(chunk))
    {
      error := error + chunk;
    }

    /** `pythonProcess.on("close")`: unlink, then reply. */
    method OnClose(code: Option<int>)
      modifies this
      ensures State() == Step(path, parse, old(State()), Close(code))
    {
      unlinked := unlinked + [path];
      var reply := Classify(code, error, parse(result));
      responses := responses + [reply];
    }

    /** `pythonProcess.on("error")`: reply, with no unlink. */
    method OnError()
      modifies this
      ensures State() == Step(path, parse, old(State()), SpawnError)
    {
      responses := responses + [LaunchFailure];
    }
  }
}
