/** The deterministic steps of `extract_skills_with_weights`
    (job-recommender-backend/scripts/process_resume.py, lines 127-160): the text
    is cleaned and split into words, bigrams and trigrams of consecutive words
    are added to the candidate chunks, and every candidate whose stripped text is
    a key of the skill catalogue is recorded with the catalogue's weight. The
    spaCy noun chunks and tokens are an input set. */
module SkillExtraction {
  import opened Common
  import opened TextClean

  // ---------------------------------------------------------------------------
  // Words

  /** The length of the run of non-whitespace characters at the start of `s`. */
  function WordRun(s: string): (n: nat)
    ensures n <= |s|
    ensures forall i :: 0 <= i < n ==> !IsSpace(s[i])
    ensures n < |s| ==> IsSpace(s[n])
  {
    if s == [] || IsSpace(s[0]) then 0 else 1 + WordRun(s[1..])
  }

  /** A word as `str.split()` produces it: non-empty, without whitespace. */
  predicate IsWord(w: string) {
    |w| > 0 && forall i :: 0 <= i < |w| ==> !IsSpace(w[i])
  }

  /** `s.split()`: the maximal runs of non-whitespace characters, in order. */
  function Split(s: string): (words: seq<string>)
    decreases |s|
    ensures forall i :: 0 <= i < |words| ==> IsWord(words[i])
  {
    var t := s[SpaceRun(s)..];
    if t == [] then []
    else
      var n := WordRun(t);
      [t[..n]] + Split(t[n..])
  }

  /** `' '.join(words)`. */
  function Join(words: seq<string>): string {
    if words == [] then ""
    else if |words| == 1 then words[0]
    else words[0] + " " + Join(words[1..])
  }

  lemma WordRunOfWord(w: string, rest: string)
    requires IsWord(w) && (rest == [] || IsSpace(rest[0]))
    ensures WordRun(w + rest) == |w|
    decreases |w|
  {
    if |w| > 1 {
      assert (w + rest)[1..] == w[1..] + rest;
      WordRunOfWord(w[1..], rest);
    }
  }

  lemma JoinStartsWithWord(words: seq<string>)
    requires |words| > 0 && forall i :: 0 <= i < |words| ==> IsWord(words[i])
    ensures |Join(words)| > 0 && !IsSpace(Join(words)[0])
  {
    if |words| > 1 {
      assert Join(words)[0] == words[0][0];
    }
  }

  /** Splitting words joined by single spaces gives the words back. */
  lemma {:induction false} SplitJoin(words: seq<string>)
    requires forall i :: 0 <= i < |words| ==> IsWord(words[i])
    ensures Split(Join(words)) == words
    decreases |words|
  {
    if words == [] {
    } else if |words| == 1 {
      var w := words[0];
      WordRunOfWord(w, []);
      assert w + [] == w;
      assert SpaceRun(w) == 0;
      assert w[|w|..] == [];
    } else {
      var w, rest := words[0], Join(words[1..]);
      var s := Join(words);
      assert s == w + (" " + rest);
      JoinStartsWithWord(words[1..]);
      WordRunOfWord(w, " " + rest);
      assert SpaceRun(s) == 0;
      assert s[|w|..] == " " + rest;
      assert SpaceRun(" " + rest) == 1;
      assert (" " + rest)[1..] == rest;
      SplitJoin(words[1..]);
      assert s[..|w|] == w;
    }
  }

  /** Leading whitespace does not change the words. */
  lemma SplitSkipsSpace(s: string)
    requires |s| > 0 && IsSpace(s[0])
    ensures Split(s) == Split(s[1..])
  {
    assert s[SpaceRun(s)..] == s[1..][SpaceRun(s[1..])..];
  }

  /** A text starting with a word `w` that ends at whitespace or at the end
      splits into `w` and the words of the rest. */
  lemma SplitWordThen(w: string, x: string)
    requires IsWord(w) && (x == [] || IsSpace(x[0]))
    ensures Split(w + x) == [w] + Split(x)
  {
    WordRunOfWord(w, x);
    assert SpaceRun(w + x) == 0;
    assert (w + x)[..|w|] == w && (w + x)[|w|..] == x;
  }

  /** The step of `CollapseWords` at a whitespace run: the run becomes one
      space, which ends the pending word. */
  lemma CollapseSpaceStep(p: string, s: string)
    requires forall i :: 0 <= i < |p| ==> !IsSpace(p[i])
    requires |s| > 0 && IsSpace(s[0])
    requires Split(CollapseSpaces(s[SpaceRun(s)..])) == Split(s[SpaceRun(s)..])
    ensures Split(p + CollapseSpaces(s)) == Split(p + s)
  {
    var rest := s[SpaceRun(s)..];
    var c := CollapseSpaces(rest);
    assert CollapseSpaces(s) == [' '] + c;
    SplitSkipsSpace([' '] + c);
    assert ([' '] + c)[1..] == c;
    assert Split(s) == Split(rest) by {
      assert rest[SpaceRun(rest)..] == rest;
    }
    if p != [] {
      SplitWordThen(p, [' '] + c);
      SplitWordThen(p, s);
    } else {
      assert p + CollapseSpaces(s) == [' '] + c && p + s == s;
    }
  }

  /** The step of `CollapseWords` at a word character: it joins the pending word. */
  lemma CollapseCharStep(p: string, s: string)
    requires |s| > 0 && !IsSpace(s[0])
    requires Split((p + [s[0]]) + CollapseSpaces(s[1..])) == Split((p + [s[0]]) + s[1..])
    ensures Split(p + CollapseSpaces(s)) == Split(p + s)
  {
    CharJoinsWord(p, s);
  }

  lemma CharJoinsWord(p: string, s: string)
    requires |s| > 0 && !IsSpace(s[0])
    ensures p + CollapseSpaces(s) == (p + [s[0]]) + CollapseSpaces(s[1..])
    ensures p + s == (p + [s[0]]) + s[1..]
  {
    CharJoinsCollapsed(p, s);
    assert s == [s[0]] + s[1..];
    Regroup(p, [s[0]], s[1..]);
  }

  lemma CharJoinsCollapsed(p: string, s: string)
    requires |s| > 0 && !IsSpace(s[0])
    ensures p + CollapseSpaces(s) == (p + [s[0]]) + CollapseSpaces(s[1..])
  {
    var t := CollapseSpaces(s[1..]);
    CollapseAtChar(s);
    Regroup(p, [s[0]], t);
  }

  lemma Regroup(a: string, b: string, c: string)
    ensures a + (b + c) == (a + b) + c
  {
  }

  lemma CollapseAtChar(s: string)
    requires |s| > 0 && !IsSpace(s[0])
    ensures CollapseSpaces(s) == [s[0]] + CollapseSpaces(s[1..])
  {
  }

  /** Collapsing the whitespace after a pending partial word `p` keeps the
      words of `p + s`. */
  lemma {:induction false} CollapseWords(p: string, s: string)
    requires forall i :: 0 <= i < |p| ==> !IsSpace(p[i])
    ensures Split(p + CollapseSpaces(s)) == Split(p + s)
    decreases |s|
  {
    if s == [] {
      assert p + CollapseSpaces(s) == p + s;
    } else if IsSpace(s[0]) {
      var rest := s[SpaceRun(s)..];
      CollapseWords([], rest);
      assert [] + CollapseSpaces(rest) == CollapseSpaces(rest) && [] + rest == rest;
      CollapseSpaceStep(p, s);
    } else {
      CollapseWords(p + [s[0]], s[1..]);
      CollapseCharStep(p, s);
    }
  }

  /** `re.sub(r'\s+', ' ', text)` keeps the words of `text.split()`, in order.
      With the contract of `CollapseSpaces` (every whitespace character left is
      a single ' ', and the text starts and ends with whitespace exactly when
      the input does), this determines the collapsed text. */
  lemma CollapseKeepsWords(s: string)
    ensures Split(CollapseSpaces(s)) == Split(s)
  {
    CollapseWords([], s);
    assert [] + CollapseSpaces(s) == CollapseSpaces(s) && [] + s == s;
  }

  // ---------------------------------------------------------------------------
  // Bigrams and trigrams

  function Bigram(words: seq<string>, i: nat): string
    requires i + 1 < |words|
  {
    words[i] + " " + words[i + 1]
  }

  function Trigram(words: seq<string>, i: nat): string
    requires i + 2 < |words|
  {
    words[i] + " " + words[i + 1] + " " + words[i + 2]
  }

  ghost function Bigrams(words: seq<string>, n: nat): set<string> {
    set i: nat | i < n && i + 1 < |words| :: Bigram(words, i)
  }

  ghost function Trigrams(words: seq<string>, n: nat): set<string> {
    set i: nat | i < n && i + 2 < |words| :: Trigram(words, i)
  }

  /** Every bigram `words[i] words[i+1]` and every trigram
      `words[i] words[i+1] words[i+2]`. */
  ghost function Ngrams(words: seq<string>): set<string> {
    Bigrams(words, |words|) + Trigrams(words, |words|)
  }

  /** Lines 147-151: for each `i` below `len(words) - 1` the bigram at `i` is
      added, and the trigram at `i` too while `i < len(words) - 2`. */
  method AddNgrams(words: seq<string>, chunks: set<string>) returns (result: set<string>)
    ensures result == chunks + Ngrams(words)
  {
    result := chunks;
    var i := 0;
    while i < |words| - 1
      invariant 0 <= i && (|words| >= 1 ==> i <= |words| - 1)
      invariant result == chunks + Bigrams(words, i) + Trigrams(words, i)
    {
      assert Bigrams(words, i + 1) == Bigrams(words, i) + {Bigram(words, i)};
      result := result + {Bigram(words, i)};
      if i < |words| - 2 {
        assert Trigrams(words, i + 1) == Trigrams(words, i) + {Trigram(words, i)};
        result := result + {Trigram(words, i)};
      } else {
        assert Trigrams(words, i + 1) == Trigrams(words, i);
      }
      i := i + 1;
    }
    assert Bigrams(words, i) == Bigrams(words, |words|);
    assert Trigrams(words, i) == Trigrams(words, |words|);
  }

  /** A text of fewer than two words contributes no n-gram. */
  lemma NoNgramsBelowTwoWords(words: seq<string>)
    requires |words| < 2
    ensures Ngrams(words) == {}
  {
    assert Bigrams(words, |words|) == {};
    assert Trigrams(words, |words|) == {};
  }

  /** A window of two or three words, joined, is the bigram or the trigram there. */
  lemma WindowJoin(words: seq<string>, i: nat, n: nat)
    requires (n == 2 || n == 3) && i + n <= |words|
    ensures n == 2 ==> Join(words[i..i + n]) == Bigram(words, i)
    ensures n == 3 ==> Join(words[i..i + n]) == Trigram(words, i)
  {
    var w := words[i..i + n];
    if n == 2 {
      assert w == [words[i], words[i + 1]] && w[1..] == [words[i + 1]];
    } else {
      assert w == [words[i], words[i + 1], words[i + 2]];
      assert w[1..] == [words[i + 1], words[i + 2]] && w[1..][1..] == [words[i + 2]];
      assert Join(w[1..]) == words[i + 1] + " " + words[i + 2];
      assert Join(w) == words[i] + " " + Join(w[1..]);
    }
  }

  /** Each n-gram is two or three consecutive words: splitting it gives back a
      window of the word list. */
  lemma NgramsAreWindows(words: seq<string>, g: string) returns (i: nat, n: nat)
    requires forall k :: 0 <= k < |words| ==> IsWord(words[k])
    requires g in Ngrams(words)
    ensures (n == 2 || n == 3) && i + n <= |words|
    ensures g == Join(words[i..i + n]) && Split(g) == words[i..i + n]
  {
    if g in Bigrams(words, |words|) {
      i :| i + 1 < |words| && g == Bigram(words, i);
      n := 2;
    } else {
      i :| i + 2 < |words| && g == Trigram(words, i);
      n := 3;
    }
    WindowJoin(words, i, n);
    var w := words[i..i + n];
    assert forall k :: 0 <= k < |w| ==> IsWord(w[k]) by {
      forall k | 0 <= k < |w| ensures IsWord(w[k]) {
        assert w[k] == words[i + k];
      }
    }
    SplitJoin(w);
  }

  /** Words joined by spaces begin and end with a non-whitespace character. */
  lemma {:induction false} JoinEnds(words: seq<string>)
    requires |words| > 0 && forall k :: 0 <= k < |words| ==> IsWord(words[k])
    ensures |Join(words)| > 0 && !IsSpace(Join(words)[0]) && !IsSpace(Join(words)[|Join(words)| - 1])
    decreases |words|
  {
    if |words| > 1 {
      JoinEnds(words[1..]);
      var rest := Join(words[1..]);
      assert Join(words) == words[0] + " " + rest;
      assert Join(words)[0] == words[0][0];
      assert Join(words)[|Join(words)| - 1] == rest[|rest| - 1];
    }
  }

  /** A catalogue skill spelled by two or three consecutive words is named by the
      n-grams of those words, whatever the other chunks are. */
  lemma WindowSkillNamed(words: seq<string>, chunks: set<string>, catalogue: map<string, real>, i: nat, n: nat)
    requires forall k :: 0 <= k < |words| ==> IsWord(words[k])
    requires (n == 2 || n == 3) && i + n <= |words|
    requires Join(words[i..i + n]) in catalogue
    ensures Join(words[i..i + n]) in Named(chunks + Ngrams(words), catalogue)
  {
    var w := words[i..i + n];
    var g := Join(w);
    WindowJoin(words, i, n);
    assert g in Ngrams(words) by {
      if n == 2 {
        assert g in Bigrams(words, |words|);
      } else {
        assert g in Trigrams(words, |words|);
      }
    }
    assert forall k :: 0 <= k < |w| ==> IsWord(w[k]) by {
      forall k | 0 <= k < |w| ensures IsWord(w[k]) {
        assert w[k] == words[i + k];
      }
    }
    JoinEnds(w);
    assert SpaceRun(g) == 0 && g[0..] == g;
    assert TrailRun(g) == 0;
    assert Strip(g) == g;
  }

  // ---------------------------------------------------------------------------
  // The skill catalogue and the lookup

  /** `TECH_SKILLS`: the categories in declaration order, each a map from skill to
      weight. */
  const TechSkills: seq<map<string, real>> := [
    map["python" := 1.0, "java" := 1.0, "javascript" := 1.0, "typescript" := 0.9,
        "c++" := 1.0, "c#" := 1.0, "ruby" := 0.9, "php" := 0.9, "swift" := 0.9,
        "kotlin" := 0.9, "go" := 0.9, "rust" := 0.8, "scala" := 0.8],
    map["html" := 0.8, "css" := 0.8, "react" := 1.0, "angular" := 1.0, "vue" := 0.9,
        "redux" := 0.9, "webpack" := 0.8, "sass" := 0.7, "bootstrap" := 0.7,
        "tailwind" := 0.8, "responsive design" := 0.8, "web components" := 0.8],
    map["node.js" := 1.0, "express" := 0.9, "django" := 1.0, "flask" := 0.9,
        "spring" := 1.0, "asp.net" := 1.0, "fastapi" := 0.8, "graphql" := 0.9,
        "rest api" := 0.9, "microservices" := 1.0],
    map["sql" := 1.0, "mysql" := 0.9, "postgresql" := 0.9, "mongodb" := 0.9,
        "redis" := 0.8, "elasticsearch" := 0.9, "hadoop" := 0.9, "spark" := 1.0,
        "tableau" := 0.8, "power bi" := 0.8, "data analysis" := 0.9,
        "data visualization" := 0.8, "etl" := 0.9],
    map["aws" := 1.0, "azure" := 1.0, "gcp" := 1.0, "docker" := 1.0,
        "kubernetes" := 1.0, "terraform" := 0.9, "jenkins" := 0.9,
        "devops" := 1.0, "ci/cd" := 0.9, "serverless" := 0.9],
    map["machine learning" := 1.0, "deep learning" := 1.0, "nlp" := 1.0,
        "computer vision" := 1.0, "tensorflow" := 1.0, "pytorch" := 1.0,
        "scikit-learn" := 0.9, "neural networks" := 1.0, "ai" := 0.9,
        "data science" := 1.0, "statistical analysis" := 0.9],
    map["git" := 0.8, "jira" := 0.7, "agile" := 0.9, "scrum" := 0.8,
        "tdd" := 0.9, "unit testing" := 0.9, "debugging" := 0.8,
        "problem solving" := 0.9, "code review" := 0.8,
        "system design" := 1.0, "architecture" := 1.0]
  ]

  /** The dict comprehension over the categories: a later category's weight
      replaces an earlier one's for the same skill. */
  function Flatten(categories: seq<map<string, real>>): (all: map<string, real>)
    ensures forall k :: k in all <==> exists c :: 0 <= c < |categories| && k in categories[c]
  {
    if categories == [] then map[]
    else
      var front := Flatten(categories[..|categories| - 1]);
      assert forall c :: 0 <= c < |categories| - 1 ==> categories[..|categories| - 1][c] == categories[c];
      front + categories[|categories| - 1]
  }

  /** The weight of a flattened skill is the one of the last category listing it. */
  lemma {:induction false} FlattenLastWins(categories: seq<map<string, real>>, k: string, c: nat)
    requires c < |categories| && k in categories[c]
    requires forall d :: c < d < |categories| ==> k !in categories[d]
    ensures k in Flatten(categories) && Flatten(categories)[k] == categories[c][k]
    decreases |categories|
  {
    if c < |categories| - 1 {
      var front := categories[..|categories| - 1];
      assert front[c] == categories[c];
      forall d | c < d < |front| ensures k !in front[d] {
        assert front[d] == categories[d];
      }
      FlattenLastWins(front, k, c);
    }
  }

  /** `ALL_SKILLS`. */
  const AllSkills: map<string, real> := Flatten(TechSkills)

  /** The skills that the candidate chunks name: the stripped chunks that are
      catalogue keys. */
  ghost function Named(chunks: set<string>, catalogue: map<string, real>): set<string> {
    set c | c in chunks && Strip(c) in catalogue :: Strip(c)
  }

  /** The skills the chunks name, each with its catalogue weight. */
  ghost function SkillsFrom(chunks: set<string>, catalogue: map<string, real>): map<string, real> {
    map k | k in Named(chunks, catalogue) :: catalogue[k]
  }

  /** The skills map holds exactly the named skills, with their catalogue weights. */
  lemma SkillsFromEntries(chunks: set<string>, catalogue: map<string, real>)
    ensures SkillsFrom(chunks, catalogue).Keys == Named(chunks, catalogue)
    ensures forall k :: k in SkillsFrom(chunks, catalogue) ==>
              k in catalogue && SkillsFrom(chunks, catalogue)[k] == catalogue[k]
  {
  }

  /** One more chunk adds its stripped form, with its weight, when that is a
      catalogue key, and nothing otherwise. */
  lemma SkillsFromAdd(done: set<string>, chunk: string, catalogue: map<string, real>)
    ensures SkillsFrom(done + {chunk}, catalogue)
            == if Strip(chunk) in catalogue then SkillsFrom(done, catalogue)[Strip(chunk) := catalogue[Strip(chunk)]]
               else SkillsFrom(done, catalogue)
  {
    NamedAdd(done, chunk, catalogue);
  }

  lemma NamedAdd(done: set<string>, chunk: string, catalogue: map<string, real>)
    ensures Named(done + {chunk}, catalogue)
            == Named(done, catalogue) + (if Strip(chunk) in catalogue then {Strip(chunk)} else {})
  {
  }

  /** Lines 154-157: every chunk is stripped and, when it is a catalogue key,
      recorded with the catalogue's weight. The set's iteration order does not
      matter: a key is always recorded with the same weight. */
  method LookupSkills(chunks: set<string>, catalogue: map<string, real>) returns (found: map<string, real>)
    ensures found.Keys == Named(chunks, catalogue)
    ensures forall k :: k in found ==> k in catalogue && found[k] == catalogue[k]
    ensures found == SkillsFrom(chunks, catalogue)
  {
    found := map[];
    var remaining := chunks;
    ghost var done: set<string> := {};
    while remaining != {}
      invariant done + remaining == chunks
      invariant found == SkillsFrom(done, catalogue)
      decreases |remaining|
    {
      var chunk :| chunk in remaining;
      var key := Strip(chunk);
      SkillsFromAdd(done, chunk, catalogue);
      if key in catalogue {
        found := found[key := catalogue[key]];
      }
      done := done + {chunk};
      remaining := remaining - {chunk};
    }
    SkillsFromEntries(chunks, catalogue);
  }

  /** The skills map of a text: what the lookup finds among spaCy's chunks and
      the n-grams of the cleaned text's words. */
  ghost function SkillsOf(text: string, nlpChunks: set<string>): map<string, real> {
    SkillsFrom(nlpChunks + Ngrams(Split(CleanText(text))), AllSkills)
  }

  /** `extract_skills_with_weights(text, nlp)`: `nlpChunks` are the lower-cased
      noun chunks and non-stop, non-punctuation tokens spaCy finds in the cleaned
      text. The result names exactly the catalogue skills among those chunks and
      the n-grams of the cleaned text's words, each with its catalogue weight. */
  method ExtractSkills(text: string, nlpChunks: set<string>) returns (skills: map<string, real>)
    ensures skills.Keys == Named(nlpChunks + Ngrams(Split(CleanText(text))), AllSkills)
    ensures forall k :: k in skills ==> k in AllSkills && skills[k] == AllSkills[k]
    ensures skills == SkillsOf(text, nlpChunks)
  {
    var cleaned := CleanText(text);
    var words := Split(cleaned);
    var chunks := AddNgrams(words, nlpChunks);
    skills := LookupSkills(chunks, AllSkills);
  }

  // ---------------------------------------------------------------------------
  // Characters the cleaning removes

  lemma DropAvoids(s: string, c: char, k: nat)
    requires c !in s && k <= |s|
    ensures c !in s[k..]
  {
    forall i | 0 <= i < |s[k..]| ensures s[k..][i] != c { assert s[k..][i] == s[k + i]; }
  }

  lemma TakeAvoids(s: string, c: char, k: nat)
    requires c !in s && k <= |s|
    ensures c !in s[..k]
  {
    forall i | 0 <= i < k ensures s[..k][i] != c { assert s[..k][i] == s[i]; }
  }

  lemma ConsAvoids(w: string, ws: seq<string>, c: char)
    requires c !in w && forall i :: 0 <= i < |ws| ==> c !in ws[i]
    ensures forall i :: 0 <= i < |[w] + ws| ==> c !in ([w] + ws)[i]
  {
    forall i | 0 <= i < |[w] + ws| ensures c !in ([w] + ws)[i] {
      if i > 0 { assert ([w] + ws)[i] == ws[i - 1]; }
    }
  }

  /** The words of a text without `c` do not contain `c`. */
  lemma {:induction false} SplitAvoids(s: string, c: char)
    requires c !in s
    ensures forall i :: 0 <= i < |Split(s)| ==> c !in Split(s)[i]
    decreases |s|
  {
    var t := s[SpaceRun(s)..];
    if t != [] {
      var n := WordRun(t);
      var w, rest := t[..n], t[n..];
      assert Split(s) == [w] + Split(rest);
      DropAvoids(s, c, SpaceRun(s));
      TakeAvoids(t, c, n);
      DropAvoids(t, c, n);
      SplitAvoids(rest, c);
      ConsAvoids(w, Split(rest), c);
    }
  }

  /** Joining words without `c` by spaces gives a text without `c`. */
  lemma {:induction false} JoinAvoids(words: seq<string>, c: char)
    requires c != ' ' && forall i :: 0 <= i < |words| ==> c !in words[i]
    ensures c !in Join(words)
    decreases |words|
  {
    if |words| > 1 {
      JoinAvoids(words[1..], c);
      assert Join(words) == words[0] + " " + Join(words[1..]);
    }
  }

  /** No bigram or trigram of words without `c` contains `c`. */
  lemma NgramsAvoid(words: seq<string>, c: char)
    requires c != ' '
    requires forall i :: 0 <= i < |words| ==> IsWord(words[i]) && c !in words[i]
    ensures forall g :: g in Ngrams(words) ==> c !in g
  {
    forall g | g in Ngrams(words)
      ensures c !in g
    {
      var i, n := NgramsAreWindows(words, g);
      WindowAvoids(words, i, n, c);
    }
  }

  lemma WindowAvoids(words: seq<string>, i: nat, n: nat, c: char)
    requires i + n <= |words| && c != ' '
    requires forall j :: 0 <= j < |words| ==> IsWord(words[j]) && c !in words[j]
    ensures c !in Join(words[i..i + n])
  {
    var w := words[i..i + n];
    forall k | 0 <= k < |w|
      ensures c !in w[k]
    {
      assert w[k] == words[i + k];
    }
    JoinAvoids(w, c);
  }

  lemma StripAvoids(s: string, c: char)
    requires c !in s
    ensures c !in Strip(s)
  {
    var r := Strip(s);
    forall k | 0 <= k < |r|
      ensures r[k] != c
    {
      assert r[k] == s[SpaceRun(s) + k];
    }
  }

  /** The cleaned text holds no character outside `CleanChar`. */
  lemma CleanTextAvoids(text: string, c: char)
    requires !CleanChar(c)
    ensures c !in CleanText(text)
  {
    CleanTextIsClean(text);
    var t := CleanText(text);
    forall k | 0 <= k < |t|
      ensures t[k] != c
    {
      assert CleanChar(t[k]);
    }
  }

  lemma NamedAvoids(chunks: set<string>, catalogue: map<string, real>, c: char)
    requires forall ch :: ch in chunks ==> c !in ch
    ensures forall k :: k in Named(chunks, catalogue) ==> c !in k
  {
    forall k | k in Named(chunks, catalogue)
      ensures c !in k
    {
      var ch :| ch in chunks && Strip(ch) in catalogue && Strip(ch) == k;
      StripAvoids(ch, c);
    }
  }

  /** A character that the cleaning replaces (anything but a lower-case letter,
      a digit, `_`, a space, `-` or `/`) occurs in no extracted skill. spaCy's
      noun chunks and tokens are spans of the cleaned text, which is already
      lower-case, so each chunk is a substring of it. */
  lemma SkillsAvoid(text: string, nlpChunks: set<string>, c: char)
    requires !CleanChar(c)
    requires forall ch :: ch in nlpChunks ==> Contains(CleanText(text), ch)
    ensures forall k :: k in SkillsOf(text, nlpChunks) ==> c !in k
  {
    var words := Split(CleanText(text));
    CleanTextAvoids(text, c);
    forall ch | ch in nlpChunks
      ensures c !in ch
    {
      if c in ch {
        ContainsChar(CleanText(text), ch, c);
      }
    }
    SplitAvoids(CleanText(text), c);
    NgramsAvoid(words, c);
    NamedAvoids(nlpChunks + Ngrams(words), AllSkills, c);
    SkillsFromEntries(nlpChunks + Ngrams(words), AllSkills);
  }

  /** The catalogue lists "c++", "c#", "node.js" and "asp.net", but the cleaning
      turns `+`, `#` and `.` into spaces before the lookup, so none of the four
      is ever extracted. */
  lemma SymbolSkillsNeverFound(text: string, nlpChunks: set<string>)
    requires forall ch :: ch in nlpChunks ==> Contains(CleanText(text), ch)
    ensures "c++" !in SkillsOf(text, nlpChunks) && "c#" !in SkillsOf(text, nlpChunks)
    ensures "node.js" !in SkillsOf(text, nlpChunks) && "asp.net" !in SkillsOf(text, nlpChunks)
  {
    SkillsAvoid(text, nlpChunks, '+');
    SkillsAvoid(text, nlpChunks, '#');
    SkillsAvoid(text, nlpChunks, '.');
    assert "c++"[1] == '+' && "c#"[1] == '#' && "node.js"[4] == '.' && "asp.net"[3] == '.';
  }
}
