/** The server and the worker together: what the `close` handler of
    job-recommender-backend/server.js (lines 153-186) makes of what
    process_resume.py prints (lines 308-324), and where the worker looks for the
    job data the server prepared (server.js lines 22-60 and 107-116). */
module Pipeline {
  import opened Common
  import opened JsonValue
  import opened UploadServer
  import opened Recommend

  /** What `json.dumps` of the script's result parses back to. `encode` is one
      recommendation as a JSON object; its key order and the order of its
      `matching_skills` list are Python's choice and are not modelled. */
  function OutcomeJson(o: Outcome, encode: JobMatch -> Json): (j: Json)
    ensures o.Failure? ==> j == ErrorBody(o.error)
    ensures o.Recommended? ==> j.JArr? && |j.items| == |o.jobs|
                               && forall i :: 0 <= i < |o.jobs| ==> j.items[i] == encode(o.jobs[i])
  {
    match o
    case Failure(e) => ErrorBody(e)
    case Recommended(jobs) => JArr(seq(|jobs|, i requires 0 <= i < |jobs| => encode(jobs[i])))
  }

  /** The reply to a worker that exited with 0 after printing `o`, when the
      server parses back what was printed: a non-empty message is passed on as
      a 400 unchanged, an empty one (falsy in JavaScript) becomes "No job
      recommendations found", and recommendations are sent with 200. */
  lemma ReplyToOutcome(o: Outcome, encode: JobMatch -> Json, stderr: string)
    ensures o.Failure? && o.error != "" ==>
              Classify(Some(0), stderr, Some(OutcomeJson(o, encode))) == Response(400, ErrorBody(o.error))
    ensures o.Failure? && o.error == "" ==>
              Classify(Some(0), stderr, Some(OutcomeJson(o, encode))) == Response(400, ErrorBody(NoRecommendations))
    ensures o.Recommended? && o.jobs != [] ==>
              Classify(Some(0), stderr, Some(OutcomeJson(o, encode))) == Response(200, OutcomeJson(o, encode))
    ensures o.Recommended? && o.jobs == [] ==>
              Classify(Some(0), stderr, Some(OutcomeJson(o, encode))) == Response(400, ErrorBody(NoRecommendations))
  {
    if o.Failure? {
      assert Truthy(JStr(o.error)) <==> o.error != "";
    }
  }

  /** Every worker run ends in a definite reply: exit code 1 (bad arguments or
      a missing resume) is a 500 whatever was printed; with exit code 0 a chain
      error is a 400 carrying the worker's message, and recommendations are a
      200 carrying one to five entries. */
  lemma WorkerReply(argv: seq<string>, env: WorkerEnv, encode: JobMatch -> Json, stderr: string)
    ensures var run := MainRun(argv, env, DataDirOf);
            var reply := Classify(Some(run.exitCode), stderr, Some(OutcomeJson(run.output, encode)));
            (run.exitCode == 1 ==> reply == Response(500, ErrorDetailsBody(ProcessingFailed, FirstLine(stderr))))
            && (run.exitCode == 0 && run.output.Failure? ==> reply == Response(400, ErrorBody(run.output.error)))
            && (run.exitCode == 0 && run.output.Recommended? ==>
                  reply.status == 200 && reply.body.JArr? && 0 < |reply.body.items| <= NumRecommendations)
  {
    var run := MainRun(argv, env, DataDirOf);
    ReplyToOutcome(run.output, encode, stderr);
  }

  /** The stored upload's path, as the worker receives it. */
  function StoredPath(root: string, now: nat, originalName: string): (p: string)
    ensures p == JoinPath(UploadsDir(root), StoredName(now, originalName))
  {
    ReceiveUpload(root, now, Some(UploadPart(UploadField, originalName, PdfMimeType, 0))).file.value.path
  }

  /** A server root as `__dirname` gives it: not empty, no trailing slash. */
  predicate PlainRoot(root: string) {
    root != [] && root[|root| - 1] != '/'
  }

  /** As written, the worker's data directory for any stored upload is the
      uploads directory itself (line 318 takes the directory of the resume). */
  lemma SourceDataDirIsUploads(root: string, now: nat, originalName: string)
    requires PlainRoot(root) && '/' !in originalName
    ensures SourceDataDir(StoredPath(root, now, originalName)) == UploadsDir(root)
  {
    var name := StoredName(now, originalName);
    assert '/' !in name by {
      assert name == Decimal(now) + "-" + originalName;
      assert forall i :: 0 <= i < |Decimal(now)| ==> IsDigit(Decimal(now)[i]);
    }
    DirnameOfJoin(UploadsDir(root), name);
  }

  /** The discrepancy: the server checks `data/linkdindata.csv` and spawns the
      worker, but the worker as written looks for `uploads/linkdindata.csv`.
      With the job data where the server puts it and none in the uploads
      directory, a PDF that passes every check of the server is answered with
      400 "Failed to load job data". */
  lemma AsWrittenLosesJobData(root: string, fs: set<string>, now: nat, part: UploadPart,
                              env: WorkerEnv, encode: JobMatch -> Json, stderr: string)
    requires PlainRoot(root) && '/' !in part.originalName
    requires part.fieldName == UploadField && part.mimeType == PdfMimeType && part.size <= MaxFileSize
    requires JoinPath(DataDir(root), CsvName) in fs && ScriptPath(root) in fs
    requires StoredPath(root, now, part.originalName) in env.fs && UploadsDir(root) in env.fs && env.modelLoads
    requires JoinPath(UploadsDir(root), CsvName) !in env.fs
    ensures HandleUpload(root, fs, ReceiveUpload(root, now, Some(part))).Spawn?
    ensures var path := HandleUpload(root, fs, ReceiveUpload(root, now, Some(part))).file.path;
            var run := MainRun([ScriptPath(root), path], env, SourceDataDir);
            run == WorkerRun(0, Failure("Failed to load job data"))
            && Classify(Some(run.exitCode), stderr, Some(OutcomeJson(run.output, encode)))
               == Response(400, ErrorBody("Failed to load job data"))
  {
    var path := StoredPath(root, now, part.originalName);
    assert HandleUpload(root, fs, ReceiveUpload(root, now, Some(part))).file.path == path;
    SourceDataDirIsUploads(root, now, part.originalName);
    ReplyToOutcome(Failure("Failed to load job data"), encode, stderr);
  }

  /** With the data directory corrected to `data` beside the uploads directory,
      the worker reads exactly the job data file the server checked before
      spawning it. */
  lemma CorrectedDataDirIsChecked(root: string, fs: set<string>, now: nat, part: UploadPart)
    requires PlainRoot(root) && '/' !in part.originalName
    requires HandleUpload(root, fs, ReceiveUpload(root, now, Some(part))).Spawn?
    ensures var path := HandleUpload(root, fs, ReceiveUpload(root, now, Some(part))).file.path;
            DataDirOf(path) == DataDir(root) && JoinPath(DataDirOf(path), CsvName) in fs
  {
    var path := StoredPath(root, now, part.originalName);
    assert HandleUpload(root, fs, ReceiveUpload(root, now, Some(part))).file.path == path;
    SourceDataDirIsUploads(root, now, part.originalName);
    DirnameOfJoin(root, "uploads");
  }
}
