/** Experience levels and the parts of the match score that are not arithmetic
    (job-recommender-backend/scripts/process_resume.py): keyword detection of a
    text's level (lines 60-64, 73-80), the experience multiplier (206-211), and
    the empty-skills guard and skill intersection of `calculate_match_scores`
    (166-171, 226). */
module Experience {
  import opened Common

  /** The keys of `EXPERIENCE_LEVELS`. */
  datatype Level = Entry | Mid | Senior

  /** The dictionary's key order. */
  const LevelOrder: seq<Level> := [Entry, Mid, Senior]

  /** The keywords of each level. They are sets in the source; `any` over a set
      does not depend on its order. */
  function Keywords(level: Level): seq<string> {
    match level
    case Entry => ["entry level", "junior", "graduate", "fresh", "trainee", "0-2 years", "1-2 years"]
    case Mid => ["mid level", "intermediate", "associate", "2-5 years", "3-5 years"]
    case Senior => ["senior", "lead", "principal", "architect", "5+ years", "7+ years", "8+ years"]
  }

  /** Some keyword of `level` occurs in `text`. */
  predicate Mentions(text: string, level: Level) {
    exists k :: 0 <= k < |Keywords(level)| && Contains(text, Keywords(level)[k])
  }

  /** The levels of `order` that the text mentions, in that order. */
  function LevelsFound(text: string, order: seq<Level>): (found: seq<Level>)
    ensures |found| <= |order|
    ensures forall i :: 0 <= i < |found| ==> found[i] in order && Mentions(text, found[i])
  {
    if order == [] then []
    else
      var last := order[|order| - 1];
      var front := LevelsFound(text, order[..|order| - 1]);
      assert forall i :: 0 <= i < |front| ==> front[i] in order;
      front + (if Mentions(text, last) then [last] else [])
  }

  /** Over the key order, the levels found are the mentioned ones among entry,
      mid and senior, in that order. */
  lemma LevelsFoundInOrder(text: string)
    ensures LevelsFound(text, LevelOrder)
            == (if Mentions(text, Entry) then [Entry] else [])
               + (if Mentions(text, Mid) then [Mid] else [])
               + (if Mentions(text, Senior) then [Senior] else [])
  {
    assert [Entry][..0] == [];
    assert [Entry, Mid][..1] == [Entry];
    assert LevelOrder[..2] == [Entry, Mid];
    assert LevelsFound(text, [Entry]) == (if Mentions(text, Entry) then [Entry] else []);
    assert LevelsFound(text, [Entry, Mid])
           == (if Mentions(text, Entry) then [Entry] else []) + (if Mentions(text, Mid) then [Mid] else []);
  }

  /** `extract_experience_level`, stated as the level the lower-cased text
      mentions first in key order, or `Mid` when it mentions none. An entry
      keyword wins over everything; a senior keyword counts only when no entry
      and no mid keyword occurs. */
  function DetectLevel(text: string): (level: Level)
    ensures level == Entry <==> Mentions(Lower(text), Entry)
    ensures level == Mid <==> !Mentions(Lower(text), Entry)
                              && (Mentions(Lower(text), Mid) || !Mentions(Lower(text), Senior))
    ensures level == Senior <==> !Mentions(Lower(text), Entry) && !Mentions(Lower(text), Mid)
                                 && Mentions(Lower(text), Senior)
  {
    var found := LevelsFound(Lower(text), LevelOrder);
    LevelsFoundInOrder(Lower(text));
    if |found| > 0 then found[0] else Mid
  }

  /** `any(keyword in text for keyword in keywords)`: the keywords are tried in
      turn until one occurs. */
  method AnyKeyword(text: string, keywords: seq<string>) returns (matched: bool)
    ensures matched <==> exists k :: 0 <= k < |keywords| && Contains(text, keywords[k])
  {
    matched := false;
    var j := 0;
    while j < |keywords| && !matched
      invariant 0 <= j <= |keywords|
      invariant matched <==> exists k :: 0 <= k < j && Contains(text, keywords[k])
    {
      matched := Contains(text, keywords[j]);
      j := j + 1;
    }
  }

  /** Lines 73-80: the text is lower-cased; for each level in key order, the
      level is appended to `levels` when one of its keywords occurs; the first
      collected level is returned, `Mid` if none. */
  method ExtractExperienceLevel(text: string) returns (level: Level)
    ensures level == DetectLevel(text)
  {
    var lowered := Lower(text);
    var levels: seq<Level> := [];
    var i := 0;
    while i < |LevelOrder|
      invariant 0 <= i <= |LevelOrder|
      invariant levels == LevelsFound(lowered, LevelOrder[..i])
    {
      var candidate := LevelOrder[i];
      var matched := AnyKeyword(lowered, Keywords(candidate));
      assert LevelOrder[..i + 1][..i] == LevelOrder[..i];
      if matched {
        levels := levels + [candidate];
      }
      i := i + 1;
    }
    assert LevelOrder[..i] == LevelOrder;
    level := if |levels| > 0 then levels[0] else Mid;
  }

  /** The position of a level in the key order (`list(...).index(level)`). */
  function Rank(level: Level): (r: nat)
    ensures r < |LevelOrder| && LevelOrder[r] == level
  {
    match level
    case Entry => 0
    case Mid => 1
    case Senior => 2
  }

  /** Lines 206-211: equal levels give 1.2, levels next to each other in the key
      order give 0.8, and entry against senior gives 1.0. */
  function ExperienceMultiplier(resume: Level, job: Level): (m: real)
    ensures m == 1.2 <==> resume == job
    ensures m == 0.8 <==> resume != job && (resume == Mid || job == Mid)
    ensures m == 1.0 <==> {resume, job} == {Entry, Senior}
  {
    var gap := Rank(resume) - Rank(job);
    if resume == job then 1.2
    else if gap == 1 || gap == -1 then 0.8
    else 1.0
  }

  /** The multiplier does not depend on which side is the resume. */
  lemma MultiplierSymmetric(a: Level, b: Level)
    ensures ExperienceMultiplier(a, b) == ExperienceMultiplier(b, a)
  {
    if a != b && a != Mid && b != Mid {
      assert {a, b} == {b, a};
    }
  }

  /** What `calculate_match_scores` returns. */
  datatype MatchResult = MatchResult(finalScore: real, skillScore: real, matchingSkills: set<string>)

  /** Lines 166-171 and 226. The matching skills are the skills both maps name;
      when either map is empty the scores are 0 and no skill is listed. The two
      scores of the non-empty case come from the weighted sums, the TF-IDF
      similarity and the multiplier, which are not modelled: they are passed in. */
  function MatchScores(resumeSkills: map<string, real>, jobSkills: map<string, real>,
                       finalScore: real, skillScore: real): (r: MatchResult)
    ensures r.matchingSkills == resumeSkills.Keys * jobSkills.Keys
    ensures |resumeSkills| == 0 || |jobSkills| == 0 ==> r == MatchResult(0.0, 0.0, {})
    ensures |resumeSkills| > 0 && |jobSkills| > 0 ==> r.finalScore == finalScore && r.skillScore == skillScore
  {
    if |resumeSkills| == 0 || |jobSkills| == 0 then
      assert resumeSkills.Keys == {} || jobSkills.Keys == {};
      MatchResult(0.0, 0.0, {})
    else MatchResult(finalScore, skillScore, resumeSkills.Keys * jobSkills.Keys)
  }
}
