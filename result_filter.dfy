/** The client's result filter (src/App.js): the free-text search predicate, the
    selected-skill predicate, the visible subset of the recommendations, the skill
    toggle and the colour band of a match score. All of these are pure: they build
    new values from the component's state. */
module ResultFilter {
  import opened Common

  /** One recommendation as the client receives it. `company` and
      `matchingSkills` may be absent; `title` and `location` are read
      unconditionally by the filter. */
  datatype Job = Job(
    title: string,
    company: Option<string>,
    location: string,
    matchScore: real,
    experienceLevel: string,
    matchingSkills: Option<seq<string>>,
    applyLink: string)

  /** `!searchQuery || title.includes(q) || company?.includes(q) || location.includes(q)`,
      all sides lower-cased. The query is not trimmed. */
  predicate MatchesSearch(job: Job, query: string) {
    query == []
    || Contains(Lower(job.title), Lower(query))
    || (job.company.Some? && Contains(Lower(job.company.value), Lower(query)))
    || Contains(Lower(job.location), Lower(query))
  }

  /** Some entry of the job's skill list contains the selected skill, ignoring case.
      An absent list (`matching_skills?.some(...)` is undefined) never matches. */
  predicate HasSkill(job: Job, skill: string) {
    job.matchingSkills.Some? &&
    exists k :: 0 <= k < |job.matchingSkills.value| &&
      Contains(Lower(job.matchingSkills.value[k]), Lower(skill))
  }

  /** `selectedSkills.length === 0 || selectedSkills.every(skill => HasSkill(job, skill))`. */
  predicate MatchesSkills(job: Job, selected: seq<string>) {
    |selected| == 0 || forall i :: 0 <= i < |selected| ==> HasSkill(job, selected[i])
  }

  predicate Visible(job: Job, query: string, selected: seq<string>) {
    MatchesSearch(job, query) && MatchesSkills(job, selected)
  }

  /** `filteredJobs`: `recommendations.filter(job => matchesSearch && matchesSkills)`. */
  function FilteredJobs(recs: seq<Job>, query: string, selected: seq<string>): seq<Job> {
    Filter(recs, job => Visible(job, query, selected))
  }

  /** The visible list is exactly the recommendations at the visible positions,
      in their original order: an order-preserving subsequence with no insertion
      and no repetition, which keeps every visible position and no other. */
  lemma FilteredPositions(recs: seq<Job>, query: string, selected: seq<string>)
    returns (idx: seq<nat>)
    ensures SubsequenceAt(FilteredJobs(recs, query, selected), recs, idx)
    ensures forall p :: 0 <= p < |recs| ==> (p in idx <==> Visible(recs[p], query, selected))
  {
    idx := FilterPositions(recs, job => Visible(job, query, selected));
  }

  /** With an empty query and no selected skill, every recommendation is shown. */
  lemma NoFilterIsIdentity(recs: seq<Job>)
    ensures FilteredJobs(recs, "", []) == recs
  {
    FilterAll(recs, job => Visible(job, "", []));
  }

  /** A job without a skill list disappears as soon as any skill is selected. */
  lemma AbsentSkillsExcluded(job: Job, query: string, selected: seq<string>)
    requires job.matchingSkills.None? && |selected| > 0
    ensures !Visible(job, query, selected)
  {
    assert !HasSkill(job, selected[0]);
  }

  /** Selecting one more skill narrows the list: the new visible list is the old
      visible list filtered again, so it never gains a job. */
  lemma AddingSkillNarrows(recs: seq<Job>, query: string, selected: seq<string>, skill: string)
    ensures FilteredJobs(recs, query, selected + [skill])
         == FilteredJobs(FilteredJobs(recs, query, selected), query, selected + [skill])
  {
    forall k | 0 <= k < |recs| && Visible(recs[k], query, selected + [skill])
      ensures Visible(recs[k], query, selected)
    {
      forall i | 0 <= i < |selected| ensures HasSkill(recs[k], selected[i]) {
        assert (selected + [skill])[i] == selected[i];
      }
    }
    FilterNarrows(recs, job => Visible(job, query, selected), job => Visible(job, query, selected + [skill]));
  }

  /** The search ignores case: lower-casing the query first changes nothing. */
  lemma SearchIgnoresQueryCase(job: Job, query: string)
    ensures MatchesSearch(job, query) <==> MatchesSearch(job, Lower(query))
  {
    LowerIdempotent(query);
  }

  /** The four bands of `getMatchScoreColor`, strongest first. */
  datatype Band = Strong | Good | Fair | Weak

  /** Thresholds checked in order 80, 60, 40: each score lands in exactly one
      half-open interval. */
  function ScoreBand(score: real): (b: Band)
    ensures b == Strong <==> 80.0 <= score
    ensures b == Good <==> 60.0 <= score < 80.0
    ensures b == Fair <==> 40.0 <= score < 60.0
    ensures b == Weak <==> score < 40.0
  {
    if score >= 80.0 then Strong
    else if score >= 60.0 then Good
    else if score >= 40.0 then Fair
    else Weak
  }

  function Gradient(b: Band): string {
    match b
    case Strong => "linear-gradient(135deg, #059669, #10B981)"
    case Good => "linear-gradient(135deg, #3B82F6, #60A5FA)"
    case Fair => "linear-gradient(135deg, #D97706, #FBBF24)"
    case Weak => "linear-gradient(135deg, #DC2626, #EF4444)"
  }

  /** `getMatchScoreColor(score)`. */
  function MatchScoreColor(score: real): string {
    Gradient(ScoreBand(score))
  }

  function BandRank(b: Band): nat {
    match b
    case Weak => 0
    case Fair => 1
    case Good => 2
    case Strong => 3
  }

  /** A higher score never gets a weaker band, and two scores get the same
      colour exactly when they fall in the same band. */
  lemma ColourBands(s1: real, s2: real)
    ensures s1 <= s2 ==> BandRank(ScoreBand(s1)) <= BandRank(ScoreBand(s2))
    ensures MatchScoreColor(s1) == MatchScoreColor(s2) <==> ScoreBand(s1) == ScoreBand(s2)
  {
    var g1, g2 := Gradient(ScoreBand(s1)), Gradient(ScoreBand(s2));
    if ScoreBand(s1) != ScoreBand(s2) {
      assert g1[26] != g2[26];
    }
  }

  /** `handleSkillClick`: a selected skill is removed (every copy of it), any
      other skill is appended at the end. */
  function ToggleSkill(selected: seq<string>, skill: string): (r: seq<string>)
    ensures skill in selected ==> skill !in r
    ensures skill in selected ==> forall s :: s != skill ==> (s in r <==> s in selected)
    ensures skill !in selected ==> r == selected + [skill]
    ensures skill in selected ==> r == Filter(selected, s => s != skill)
  {
    if skill in selected then Filter(selected, s => s != skill) else selected + [skill]
  }

  /** Deselecting keeps the other skills in their order: the new selection
      is the old one at exactly the positions not holding the skill. */
  lemma ToggleOffKeepsOrder(selected: seq<string>, skill: string) returns (idx: seq<nat>)
    requires skill in selected
    ensures SubsequenceAt(ToggleSkill(selected, skill), selected, idx)
    ensures forall p :: 0 <= p < |selected| ==> (p in idx <==> selected[p] != skill)
  {
    idx := FilterPositions(selected, s => s != skill);
  }

  /** A selection without repeats stays without repeats. */
  lemma ToggleKeepsDistinct(selected: seq<string>, skill: string)
    requires Distinct(selected)
    ensures Distinct(ToggleSkill(selected, skill))
  {
    if skill in selected {
      FilterDistinct(selected, s => s != skill);
    }
  }

  /** Clicking an unselected skill twice restores the selection. */
  lemma ToggleTwiceRestores(selected: seq<string>, skill: string)
    requires skill !in selected
    ensures ToggleSkill(ToggleSkill(selected, skill), skill) == selected
  {
    var keep := (s: string) => s != skill;
    FilterAppend(selected, [skill], keep);
    FilterAll(selected, keep);
    assert Filter([skill], keep) == [];
  }

  function BackendJob(): Job {
    Job("Backend Engineer", None, "Remote", 0.0, "", Some(["Python", "SQL"]), "")
  }

  function AnalystJob(): Job {
    Job("Data Analyst", None, "NYC", 0.0, "", Some(["Excel"]), "")
  }

  /** Lower-cased fields of the backend example job. */
  lemma BackendLowered()
    ensures Lower("Backend Engineer") == "backend engineer"
    ensures Lower("Remote") == "remote"
    ensures Lower("Python") == "python"
    ensures Lower("SQL") == "sql"
  {
  }

  /** Lower-cased fields of the analyst example job. */
  lemma AnalystLowered()
    ensures Lower("Data Analyst") == "data analyst"
    ensures Lower("NYC") == "nyc"
    ensures Lower("Excel") == "excel"
  {
  }

  /** The example queries are already lower-case. */
  lemma QueriesLowered()
    ensures Lower("engineer") == "engineer"
    ensures Lower("sql") == "sql"
    ensures Lower("excel") == "excel"
  {
    LowerOfLower("engineer");
    LowerOfLower("sql");
    LowerOfLower("excel");
  }

  lemma FilterPair(a: Job, b: Job, keep: Job -> bool)
    ensures Filter([a, b], keep) == (if keep(a) then [a] else []) + (if keep(b) then [b] else [])
  {
    assert [a, b][1..] == [b];
    assert [b][1..] == [];
  }

  lemma EngineerInTitle()
    ensures Contains("backend engineer", "engineer")
  {
    var t := "backend engineer";
    assert t[8..] == "engineer";
    assert Contains(t[8..], "engineer");
    assert Contains(t[7..], "engineer");
    assert Contains(t[6..], "engineer");
    assert Contains(t[5..], "engineer");
    assert Contains(t[4..], "engineer");
    assert Contains(t[3..], "engineer");
    assert Contains(t[2..], "engineer");
    assert Contains(t[1..], "engineer");
  }

  /** A query holding a character missing from the analyst's title, and one
      missing from its location, is found in neither. */
  lemma AbsentFromAnalyst(query: string, notInTitle: char, notInLocation: char)
    requires notInTitle in query && notInTitle !in "data analyst"
    requires notInLocation in query && notInLocation !in "nyc"
    ensures !Contains("data analyst", query) && !Contains("nyc", query)
  {
    MissingCharExcludes("data analyst", query, notInTitle);
    MissingCharExcludes("nyc", query, notInLocation);
  }

  /** Two-job example: the query "engineer" keeps only the backend job. */
  lemma ExampleQuery()
    ensures FilteredJobs([BackendJob(), AnalystJob()], "engineer", []) == [BackendJob()]
  {
    assert MatchesSearch(BackendJob(), "engineer") by {
      BackendLowered();
      QueriesLowered();
      EngineerInTitle();
    }
    assert Visible(BackendJob(), "engineer", []);
    assert !MatchesSearch(AnalystJob(), "engineer") by {
      AnalystLowered();
      QueriesLowered();
      assert "engineer"[0] == 'e';
      AbsentFromAnalyst("engineer", 'e', 'e');
    }
    FilterPair(BackendJob(), AnalystJob(), job => Visible(job, "engineer", []));
  }

  /** Two-job example: the skill "sql" matches "SQL" regardless of case. */
  lemma ExampleOneSkill()
    ensures FilteredJobs([BackendJob(), AnalystJob()], "", ["sql"]) == [BackendJob()]
  {
    BackendLowered();
    AnalystLowered();
    QueriesLowered();
    assert Contains("sql", "sql");
    assert HasSkill(BackendJob(), "sql") by {
      assert BackendJob().matchingSkills.value[1] == "SQL";
    }
    assert ["sql"][0] == "sql";
    assert Visible(BackendJob(), "", ["sql"]);
    AnalystLacksSql();
    assert !Visible(AnalystJob(), "", ["sql"]);
    FilterPair(BackendJob(), AnalystJob(), job => Visible(job, "", ["sql"]));
  }

  /** The analyst job lists no skill containing "sql". */
  lemma AnalystLacksSql()
    ensures !HasSkill(AnalystJob(), "sql")
  {
    AnalystLowered();
    QueriesLowered();
    MissingCharExcludes("excel", "sql", 'q');
  }

  /** The backend job lists no skill containing "excel". */
  lemma BackendLacksExcel()
    ensures !HasSkill(BackendJob(), "excel")
  {
    BackendLowered();
    QueriesLowered();
    MissingCharExcludes("python", "excel", 'x');
    MissingCharExcludes("sql", "excel", 'x');
    var ms := BackendJob().matchingSkills.value;
    assert ms == ["Python", "SQL"];
    forall k | 0 <= k < |ms| ensures !Contains(Lower(ms[k]), Lower("excel")) {
      if k == 0 { assert ms[k] == "Python"; } else { assert ms[k] == "SQL"; }
    }
  }

  /** Two-job example: no single job has both "sql" and "excel". */
  lemma ExampleTwoSkills()
    ensures FilteredJobs([BackendJob(), AnalystJob()], "", ["sql", "excel"]) == []
  {
    AnalystLacksSql();
    BackendLacksExcel();
    assert ["sql", "excel"][0] == "sql" && ["sql", "excel"][1] == "excel";
    assert !MatchesSkills(BackendJob(), ["sql", "excel"]);
    assert !MatchesSkills(AnalystJob(), ["sql", "excel"]);
    FilterPair(BackendJob(), AnalystJob(), job => Visible(job, "", ["sql", "excel"]));
  }

  /** The query is compared as typed: "nyc" finds the "NYC" location ... */
  lemma ExactQueryMatches()
    ensures MatchesSearch(AnalystJob(), "nyc")
  {
    AnalystLowered();
    LowerOfLower("nyc");
    assert Contains("nyc", "nyc");
  }

  lemma PaddedQueryLowered()
    ensures Lower(" nyc") == " nyc"
  {
    assert IsLowerString(" nyc");
    LowerOfLower(" nyc");
  }

  /** ... but with a leading space, as typed, it finds nothing. */
  lemma QueryNotTrimmed()
    ensures !MatchesSearch(AnalystJob(), " nyc")
  {
    PaddedQueryLowered();
    AnalystLowered();
    assert " nyc"[0] == ' ' && " nyc"[3] == 'c';
    AbsentFromAnalyst(" nyc", 'c', ' ');
  }
}
