/** `get_job_recommendations` and the script's entry point
    (job-recommender-backend/scripts/process_resume.py, lines 232-324): the
    ordered error checks, the loop that scores every job row, the sort by match
    score and the cut to the first five, and the exit codes of `__main__`.

    The file system is a set of existing paths. What libraries compute is an
    input: whether the spaCy model loads, the rows pandas reads, the text PyPDF2
    extracts, the chunks spaCy finds, and each row's scores. */
module Recommend {
  import opened Common
  import opened TextClean
  import opened SkillExtraction
  import opened Experience

  /** One CSV row (`j_tittle`, `c_name`, `company_locations`, `job_description`,
      `Apply_link`) with what is taken as given for it against the resume at
      hand: spaCy's chunks of its cleaned description and the two rounded scores
      of `calculate_match_scores`. */
  datatype JobRow = JobRow(
    title: string, company: string, location: string, description: string, applyLink: string,
    nlpChunks: set<string>, finalScore: real, skillScore: real)

  /** One entry of `job_matches`. */
  datatype JobMatch = JobMatch(
    title: string, company: string, location: string, description: string, applyLink: string,
    matchScore: real, skillScore: real, matchingSkills: set<string>, experienceLevel: Level)

  // ---------------------------------------------------------------------------
  // Scoring the rows

  /** The entry a row yields against the resume's skills (lines 273-290). */
  ghost function MatchOf(row: JobRow, resumeSkills: map<string, real>): JobMatch {
    var jobText := CleanText(row.description);
    var result := MatchScores(resumeSkills, SkillsOf(jobText, row.nlpChunks), row.finalScore, row.skillScore);
    JobMatch(row.title, row.company, row.location, row.description, row.applyLink,
             result.finalScore, result.skillScore, result.matchingSkills, DetectLevel(jobText))
  }

  /** The body of the row loop: clean the description, extract its skills, score
      it and detect its level. The matching skills are catalogue skills that the
      resume names too. */
  method ProcessRow(row: JobRow, resumeSkills: map<string, real>) returns (m: JobMatch)
    ensures m == MatchOf(row, resumeSkills)
    ensures m.matchingSkills <= resumeSkills.Keys
    ensures forall k :: k in m.matchingSkills ==> k in AllSkills
  {
    var jobText := CleanText(row.description);
    var jobSkills := ExtractSkills(jobText, row.nlpChunks);
    var result := MatchScores(resumeSkills, jobSkills, row.finalScore, row.skillScore);
    var level := ExtractExperienceLevel(jobText);
    m := JobMatch(row.title, row.company, row.location, row.description, row.applyLink,
                  result.finalScore, result.skillScore, result.matchingSkills, level);
  }

  /** A job's level is detected on its cleaned description, from which the
      cleaning has removed every `+`: the keywords "5+ years", "7+ years" and
      "8+ years" never match a job, only the resume's uncleaned text. */
  lemma PlusKeywordsMissJobs(description: string)
    ensures forall k :: k in ["5+ years", "7+ years", "8+ years"] ==> !Contains(Lower(CleanText(description)), k)
  {
    var t := CleanText(description);
    CleanTextAvoids(description, '+');
    assert '+' !in Lower(t) by {
      forall i | 0 <= i < |t|
        ensures Lower(t)[i] != '+'
      {
        assert LowerChar(t[i]) == Lower(t)[i];
      }
    }
    MissingCharExcludes(Lower(t), "5+ years", '+');
    MissingCharExcludes(Lower(t), "7+ years", '+');
    MissingCharExcludes(Lower(t), "8+ years", '+');
  }

  /** The entries of the rows processed without an exception (`None` is a row
      whose processing raised and was skipped), in row order. */
  ghost function MatchesOf(rows: seq<Option<JobRow>>, resumeSkills: map<string, real>): (matches: seq<JobMatch>)
    ensures |matches| <= |rows|
    ensures matches == [] <==> forall i :: 0 <= i < |rows| ==> rows[i].None?
  {
    if rows == [] then []
    else
      var front := rows[..|rows| - 1];
      var last := rows[|rows| - 1];
      assert forall i :: 0 <= i < |front| ==> front[i] == rows[i];
      MatchesOf(front, resumeSkills) + (if last.Some? then [MatchOf(last.value, resumeSkills)] else [])
  }

  /** Lines 270-293: every row is processed; a row that raises is skipped. */
  method CollectMatches(rows: seq<Option<JobRow>>, resumeSkills: map<string, real>) returns (matches: seq<JobMatch>)
    ensures matches == MatchesOf(rows, resumeSkills)
  {
    matches := [];
    var i := 0;
    while i < |rows|
      invariant 0 <= i <= |rows|
      invariant matches == MatchesOf(rows[..i], resumeSkills)
    {
      assert rows[..i + 1][..i] == rows[..i];
      if rows[i].Some? {
        var m := ProcessRow(rows[i].value, resumeSkills);
        matches := matches + [m];
      }
      i := i + 1;
    }
    assert rows[..i] == rows;
  }

  // ---------------------------------------------------------------------------
  // Sorting and the top five

  predicate SortedDesc(s: seq<JobMatch>) {
    forall i, j :: 0 <= i < j < |s| ==> s[i].matchScore >= s[j].matchScore
  }

  /** Puts `x` in front of the first entry that does not score higher. */
  function Insert(x: JobMatch, s: seq<JobMatch>): (r: seq<JobMatch>)
    ensures multiset(r) == multiset(s) + multiset{x}
  {
    if s == [] || x.matchScore >= s[0].matchScore then [x] + s
    else
      assert s == [s[0]] + s[1..];
      [s[0]] + Insert(x, s[1..])
  }

  /** Inserting into a list sorted by descending score keeps it sorted. */
  lemma {:induction false} InsertSorted(x: JobMatch, s: seq<JobMatch>)
    requires SortedDesc(s)
    ensures SortedDesc(Insert(x, s))
    decreases |s|
  {
    if s != [] && x.matchScore < s[0].matchScore {
      var rest := Insert(x, s[1..]);
      InsertSorted(x, s[1..]);
      forall y | y in rest
        ensures y.matchScore <= s[0].matchScore
      {
        assert y in multiset(rest);
        assert y == x || y in multiset(s[1..]);
      }
      assert Insert(x, s) == [s[0]] + rest;
    }
  }

  /** `job_matches.sort(key=lambda x: x['match_score'], reverse=True)`: ordered
      by descending score, the same entries. */
  function SortByScore(s: seq<JobMatch>): (r: seq<JobMatch>)
    ensures multiset(r) == multiset(s)
    ensures SortedDesc(r)
  {
    if s == [] then []
    else
      assert s == [s[0]] + s[1..];
      var rest := SortByScore(s[1..]);
      InsertSorted(s[0], rest);
      Insert(s[0], rest)
  }

  function HasScore(v: real): JobMatch -> bool {
    (m: JobMatch) => m.matchScore == v
  }

  lemma FilterCons(x: JobMatch, s: seq<JobMatch>, v: real)
    ensures Filter([x] + s, HasScore(v)) == (if x.matchScore == v then [x] else []) + Filter(s, HasScore(v))
  {
    assert ([x] + s)[1..] == s;
  }

  /** Two adjacent entries of different scores can trade places without
      changing the entries of any one score. */
  lemma FilterSwap(a: JobMatch, b: JobMatch, t: seq<JobMatch>, v: real)
    requires a.matchScore != b.matchScore
    ensures Filter([a] + ([b] + t), HasScore(v)) == Filter([b] + ([a] + t), HasScore(v))
  {
    var tail := Filter(t, HasScore(v));
    FilterCons(a, [b] + t, v);
    FilterCons(b, t, v);
    FilterCons(b, [a] + t, v);
    FilterCons(a, t, v);
    if a.matchScore == v {
      assert Filter([a] + ([b] + t), HasScore(v)) == [a] + tail;
      assert Filter([b] + ([a] + t), HasScore(v)) == [] + ([a] + tail);
    } else {
      assert Filter([a] + ([b] + t), HasScore(v)) == [] + Filter([b] + t, HasScore(v));
    }
  }

  /** One step of `InsertStable`: `x` passes a head that scores higher, and
      the two cannot both have score `v`. */
  lemma InsertPastHead(x: JobMatch, s: seq<JobMatch>, v: real)
    requires s != [] && x.matchScore < s[0].matchScore
    requires Filter(Insert(x, s[1..]), HasScore(v)) == Filter([x] + s[1..], HasScore(v))
    ensures Filter(Insert(x, s), HasScore(v)) == Filter([x] + s, HasScore(v))
  {
    var rest := s[1..];
    var keepHead := if s[0].matchScore == v then [s[0]] else [];
    assert Insert(x, s) == [s[0]] + Insert(x, rest);
    FilterCons(s[0], Insert(x, rest), v);
    FilterCons(s[0], [x] + rest, v);
    assert Filter(Insert(x, s), HasScore(v)) == Filter([s[0]] + ([x] + rest), HasScore(v));
    FilterSwap(s[0], x, rest, v);
    assert s == [s[0]] + rest;
  }

  /** Inserting keeps the order among entries of equal score, `x` first. */
  lemma {:induction false} InsertStable(x: JobMatch, s: seq<JobMatch>, v: real)
    ensures Filter(Insert(x, s), HasScore(v)) == Filter([x] + s, HasScore(v))
    decreases |s|
  {
    if s != [] && x.matchScore < s[0].matchScore {
      InsertStable(x, s[1..], v);
      InsertPastHead(x, s, v);
    }
  }

  /** The sort is stable, as Python's is also with `reverse=True`: entries of
      equal score keep their order. */
  lemma {:induction false} SortStable(s: seq<JobMatch>, v: real)
    ensures Filter(SortByScore(s), HasScore(v)) == Filter(s, HasScore(v))
    decreases |s|
  {
    if s != [] {
      SortStable(s[1..], v);
      InsertStable(s[0], SortByScore(s[1..]), v);
      FilterCons(s[0], SortByScore(s[1..]), v);
      FilterCons(s[0], s[1..], v);
      assert s == [s[0]] + s[1..];
    }
  }

  /** `num_recommendations`. */
  const NumRecommendations: nat := 5

  /** `s[:k]`. */
  function TopK(s: seq<JobMatch>, k: nat): (r: seq<JobMatch>)
    ensures |r| == (if k < |s| then k else |s|)
    ensures r == s[..|r|]
  {
    if k < |s| then s[..k] else s
  }

  /** Lines 298-299: the first five of the matches sorted by descending score. */
  function BestMatches(matches: seq<JobMatch>): (r: seq<JobMatch>)
    requires matches != []
    ensures 0 < |r| <= NumRecommendations && SortedDesc(r)
    ensures |r| == (if |matches| < NumRecommendations then |matches| else NumRecommendations)
    ensures r == SortByScore(matches)[..|r|]
    ensures multiset(r) <= multiset(matches)
  {
    var sorted := SortByScore(matches);
    assert |sorted| == |multiset(sorted)| == |matches|;
    var r := TopK(sorted, NumRecommendations);
    assert sorted == r + sorted[|r|..];
    assert multiset(sorted) == multiset(r) + multiset(sorted[|r|..]);
    r
  }

  /** The first five are among the matches, none more often than it occurs
      there, and no match left out scores higher than one kept. */
  lemma BestMatchesAreBest(matches: seq<JobMatch>)
    requires matches != []
    ensures forall m :: m in BestMatches(matches) ==> m in matches
    ensures multiset(BestMatches(matches)) <= multiset(matches)
    ensures BestMatches(matches) == SortByScore(matches)[..|BestMatches(matches)|]
    ensures forall m, n :: m in matches && m !in BestMatches(matches) && n in BestMatches(matches)
                           ==> n.matchScore >= m.matchScore
  {
    var sorted := SortByScore(matches);
    var jobs := BestMatches(matches);
    assert jobs == sorted[..|jobs|];
    forall m | m in jobs
      ensures m in matches
    {
      assert m in multiset(sorted);
    }
    forall m, n | m in matches && m !in jobs && n in jobs
      ensures n.matchScore >= m.matchScore
    {
      assert m in multiset(sorted);
      var k :| 0 <= k < |sorted| && sorted[k] == m;
      var i :| 0 <= i < |jobs| && jobs[i] == n;
      assert k >= |jobs|;
    }
  }

  // ---------------------------------------------------------------------------
  // The recommendation chain and the entry point

  /** What the script prints: an error object or the list of recommendations. */
  datatype Outcome = Failure(error: string) | Recommended(jobs: seq<JobMatch>)

  /** The libraries' results for one run (see the module comment). `csv` is what
      `pd.read_csv` gives when the file exists (`None`: it raised); each row is
      `None` when its processing raises. `pdfText` is the concatenated page text
      (`None`: extraction raised). */
  datatype WorkerEnv = WorkerEnv(
    fs: set<string>, modelLoads: bool, csv: Option<seq<Option<JobRow>>>, pdfText: Option<string>,
    resumeChunks: set<string>)

  const CsvName: string := "linkdindata.csv"

  /** The messages `get_job_recommendations` can return. */
  const ChainErrors: set<string> := {
    "Resume file not found", "Data directory not found", "Error loading language model",
    "Failed to load job data", "Error processing resume file", "Could not extract text from resume",
    "No relevant skills found in resume", "No matching jobs found"}

  /** `extract_text_from_pdf`'s result: the page text stripped and lower-cased. */
  function ResumeText(pdfText: string): string {
    Lower(Strip(pdfText))
  }

  /** Lines 232-302 as one value: the checks in their order, each with its
      message; a successful run gives one to five entries, best first. */
  ghost function Recommendations(resumePath: string, dataDir: string, env: WorkerEnv): (r: Outcome)
    ensures r.Failure? ==> r.error != ""
    ensures r.Recommended? ==> 0 < |r.jobs| <= NumRecommendations && SortedDesc(r.jobs)
  {
    if resumePath !in env.fs then Failure("Resume file not found")
    else if dataDir !in env.fs then Failure("Data directory not found")
    else if !env.modelLoads then Failure("Error loading language model")
    else if JoinPath(dataDir, CsvName) !in env.fs || env.csv.None? then Failure("Failed to load job data")
    else if env.pdfText.None? then Failure("Error processing resume file")
    else
      var text := ResumeText(env.pdfText.value);
      if text == "" then Failure("Could not extract text from resume")
      else
        var skills := SkillsOf(text, env.resumeChunks);
        if |skills| == 0 then Failure("No relevant skills found in resume")
        else
          var matches := MatchesOf(env.csv.value, skills);
          if matches == [] then Failure("No matching jobs found")
          else
            Recommended(BestMatches(matches))
  }

  /** Every message the chain returns is one of its eight own. */
  lemma ChainMessages(resumePath: string, dataDir: string, env: WorkerEnv)
    requires Recommendations(resumePath, dataDir, env).Failure?
    ensures Recommendations(resumePath, dataDir, env).error in ChainErrors
  {
  }

  /** Each check answers with its own message once the checks before it
      have passed; with every check passed and every row raising, the answer
      is "No matching jobs found". */
  lemma ChainOrder(resumePath: string, dataDir: string, env: WorkerEnv)
    ensures resumePath !in env.fs ==>
              Recommendations(resumePath, dataDir, env) == Failure("Resume file not found")
    ensures resumePath in env.fs && dataDir !in env.fs ==>
              Recommendations(resumePath, dataDir, env) == Failure("Data directory not found")
    ensures resumePath in env.fs && dataDir in env.fs && !env.modelLoads ==>
              Recommendations(resumePath, dataDir, env) == Failure("Error loading language model")
    ensures resumePath in env.fs && dataDir in env.fs && env.modelLoads
            && (JoinPath(dataDir, CsvName) !in env.fs || env.csv.None?) ==>
              Recommendations(resumePath, dataDir, env) == Failure("Failed to load job data")
    ensures resumePath in env.fs && dataDir in env.fs && env.modelLoads
            && JoinPath(dataDir, CsvName) in env.fs && env.csv.Some? && env.pdfText.None? ==>
              Recommendations(resumePath, dataDir, env) == Failure("Error processing resume file")
  {
  }

  /** The last three checks, once the resume's text has been read: an empty
      text, no catalogue skill in it, and no row processed without an
      exception each answer with their own message. */
  lemma ChainOrderAfterText(resumePath: string, dataDir: string, env: WorkerEnv)
    requires resumePath in env.fs && dataDir in env.fs && env.modelLoads
    requires JoinPath(dataDir, CsvName) in env.fs && env.csv.Some? && env.pdfText.Some?
    ensures ResumeText(env.pdfText.value) == "" ==>
              Recommendations(resumePath, dataDir, env) == Failure("Could not extract text from resume")
    ensures ResumeText(env.pdfText.value) != ""
            && |SkillsOf(ResumeText(env.pdfText.value), env.resumeChunks)| == 0 ==>
              Recommendations(resumePath, dataDir, env) == Failure("No relevant skills found in resume")
    ensures ResumeText(env.pdfText.value) != ""
            && |SkillsOf(ResumeText(env.pdfText.value), env.resumeChunks)| > 0
            && (forall i :: 0 <= i < |env.csv.value| ==> env.csv.value[i].None?) ==>
              Recommendations(resumePath, dataDir, env) == Failure("No matching jobs found")
  {
  }

  /** Only a run whose every check passes and that processes at least one row
      without an exception recommends jobs. */
  lemma RecommendedOnlyIfChecksPass(resumePath: string, dataDir: string, env: WorkerEnv)
    requires Recommendations(resumePath, dataDir, env).Recommended?
    ensures resumePath in env.fs && dataDir in env.fs && env.modelLoads
    ensures JoinPath(dataDir, CsvName) in env.fs && env.csv.Some? && env.pdfText.Some?
    ensures ResumeText(env.pdfText.value) != ""
    ensures |SkillsOf(ResumeText(env.pdfText.value), env.resumeChunks)| > 0
    ensures exists i :: 0 <= i < |env.csv.value| && env.csv.value[i].Some?
  {
    var skills := SkillsOf(ResumeText(env.pdfText.value), env.resumeChunks);
    assert MatchesOf(env.csv.value, skills) != [];
  }

  /** A run whose every check passes and that processes row `i` without an
      exception recommends jobs. */
  lemma ChecksPassRecommend(resumePath: string, dataDir: string, env: WorkerEnv, i: nat)
    requires resumePath in env.fs && dataDir in env.fs && env.modelLoads
    requires JoinPath(dataDir, CsvName) in env.fs && env.csv.Some? && env.pdfText.Some?
    requires ResumeText(env.pdfText.value) != ""
    requires |SkillsOf(ResumeText(env.pdfText.value), env.resumeChunks)| > 0
    requires i < |env.csv.value| && env.csv.value[i].Some?
    ensures Recommendations(resumePath, dataDir, env).Recommended?
  {
    var skills := SkillsOf(ResumeText(env.pdfText.value), env.resumeChunks);
    assert MatchesOf(env.csv.value, skills) != [];
  }

  /** The recommended jobs are the best matches of the processed rows: each
      is a processed row, at most as often as it was processed, and no
      processed row left out scores higher than one recommended. */
  lemma RecommendedAreBest(resumePath: string, dataDir: string, env: WorkerEnv)
    requires Recommendations(resumePath, dataDir, env).Recommended?
    ensures var jobs := Recommendations(resumePath, dataDir, env).jobs;
            var matches := MatchesOf(env.csv.value, SkillsOf(ResumeText(env.pdfText.value), env.resumeChunks));
            (forall m :: m in jobs ==> m in matches)
            && multiset(jobs) <= multiset(matches)
            && matches != [] && jobs == BestMatches(matches)
            && (forall m, n :: m in matches && m !in jobs && n in jobs ==> n.matchScore >= m.matchScore)
  {
    RecommendedOnlyIfChecksPass(resumePath, dataDir, env);
    var matches := MatchesOf(env.csv.value, SkillsOf(ResumeText(env.pdfText.value), env.resumeChunks));
    assert Recommendations(resumePath, dataDir, env).jobs == BestMatches(matches);
    BestMatchesAreBest(matches);
  }

  /** `get_job_recommendations(resume_path, data_dir)`. */
  method GetJobRecommendations(resumePath: string, dataDir: string, env: WorkerEnv) returns (r: Outcome)
    ensures r == Recommendations(resumePath, dataDir, env)
  {
    if resumePath !in env.fs {
      return Failure("Resume file not found");
    }
    if dataDir !in env.fs {
      return Failure("Data directory not found");
    }
    if !env.modelLoads {
      return Failure("Error loading language model");
    }
    if JoinPath(dataDir, CsvName) !in env.fs || env.csv.None? {
      return Failure("Failed to load job data");
    }
    if env.pdfText.None? {
      return Failure("Error processing resume file");
    }
    var text := ResumeText(env.pdfText.value);
    if text == "" {
      return Failure("Could not extract text from resume");
    }
    var skills := ExtractSkills(text, env.resumeChunks);
    if |skills| == 0 {
      return Failure("No relevant skills found in resume");
    }
    var matches := CollectMatches(env.csv.value, skills);
    if matches == [] {
      return Failure("No matching jobs found");
    }
    r := Recommended(BestMatches(matches));
  }

  /** Line 318 as written: the data directory is the directory of the resume. */
  function SourceDataDir(resumePath: string): string {
    Dirname(resumePath)
  }

  /** The data directory as the server lays it out: `data`, next to the directory
      holding the resume. */
  function DataDirOf(resumePath: string): string {
    JoinPath(Dirname(SourceDataDir(resumePath)), "data")
  }

  /** For a resume stored directly in `root/uploads`, the corrected data
      directory is `root/data`. */
  lemma DataDirBesideUploads(root: string, name: string)
    requires root != [] && root[|root| - 1] != '/' && '/' !in name
    ensures DataDirOf(JoinPath(JoinPath(root, "uploads"), name)) == JoinPath(root, "data")
  {
    DirnameOfJoin(JoinPath(root, "uploads"), name);
    DirnameOfJoin(root, "uploads");
  }

  /** How the script ends: its exit code and the JSON it printed. */
  datatype WorkerRun = WorkerRun(exitCode: int, output: Outcome)

  /** Lines 308-324, with the rule that picks the data directory from the resume
      path as a parameter: a wrong argument count or a missing resume prints an
      error and exits with 1; otherwise the outcome is printed and the script
      exits with 0, whatever the outcome is. */
  ghost function MainRun(argv: seq<string>, env: WorkerEnv, dataDirFor: string -> string): (run: WorkerRun)
    ensures run.exitCode == 1 <==> |argv| != 2 || argv[1] !in env.fs
    ensures run.exitCode == 0 <==> |argv| == 2 && argv[1] in env.fs
    ensures |argv| != 2 ==> run.output == Failure("Please provide the resume file path")
    ensures |argv| == 2 && argv[1] !in env.fs ==> run.output == Failure("Resume file not found")
    ensures run.exitCode == 0 ==> run.output == Recommendations(argv[1], dataDirFor(argv[1]), env)
  {
    if |argv| != 2 then WorkerRun(1, Failure("Please provide the resume file path"))
    else if argv[1] !in env.fs then WorkerRun(1, Failure("Resume file not found"))
    else WorkerRun(0, Recommendations(argv[1], dataDirFor(argv[1]), env))
  }

  /** The script's entry point with the data directory taken as `DataDirOf`.
      The resume path is taken to be absolute and normalised. */
  method WorkerMain(argv: seq<string>, env: WorkerEnv) returns (run: WorkerRun)
    ensures run == MainRun(argv, env, DataDirOf)
  {
    if |argv| != 2 {
      return WorkerRun(1, Failure("Please provide the resume file path"));
    }
    var resumePath := argv[1];
    if resumePath !in env.fs {
      return WorkerRun(1, Failure("Resume file not found"));
    }
    var outcome := GetJobRecommendations(resumePath, DataDirOf(resumePath), env);
    run := WorkerRun(0, outcome);
  }
}
