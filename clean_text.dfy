/** `clean_text` of the worker (job-recommender-backend/scripts/process_resume.py,
    lines 116-125): lower-case, replace every character outside `[\w\s\-/]` by a
    space, collapse whitespace runs, drop the whitespace around '-' and '/', and
    strip. `\w`, `\s` and case folding are taken over ASCII. */
module TextClean {
  import opened Common

  /** ASCII `\w`. */
  predicate IsWordChar(c: char) {
    'a' <= c <= 'z' || 'A' <= c <= 'Z' || '0' <= c <= '9' || c == '_'
  }

  /** ASCII `\s`, which is also what `str.strip()` and `str.split()` treat as
      whitespace: space, tab, line feed, vertical tab, form feed, carriage
      return, and the separators 0x1c-0x1f. */
  predicate IsSpace(c: char) {
    c == ' ' || 9 <= c as int <= 13 || 28 <= c as int <= 31
  }

  predicate IsSep(c: char) { c == '-' || c == '/' }

  /** The characters the class `[\w\s\-/]` lets through. */
  predicate Kept(c: char) { IsWordChar(c) || IsSpace(c) || IsSep(c) }

  /** `re.sub(r'[^\w\s\-/]', ' ', text)`. */
  function ReplaceSpecial(s: string): (r: string)
    ensures |r| == |s|
    ensures forall i :: 0 <= i < |r| ==> Kept(r[i])
    ensures forall i :: 0 <= i < |s| ==> (r[i] == s[i] <==> Kept(s[i]))
    ensures forall i :: 0 <= i < |s| && !Kept(s[i]) ==> r[i] == ' '
  {
    seq(|s|, i requires 0 <= i < |s| => if Kept(s[i]) then s[i] else ' ')
  }

  /** The length of the whitespace run at the start of `s`. */
  function SpaceRun(s: string): (n: nat)
    ensures n <= |s|
    ensures forall i :: 0 <= i < n ==> IsSpace(s[i])
    ensures n < |s| ==> !IsSpace(s[n])
  {
    if s == [] || !IsSpace(s[0]) then 0 else 1 + SpaceRun(s[1..])
  }

  /** The length of the whitespace run at the end of `s`. */
  function TrailRun(s: string): (n: nat)
    ensures n <= |s|
    ensures forall i :: |s| - n <= i < |s| ==> IsSpace(s[i])
    ensures n < |s| ==> !IsSpace(s[|s| - 1 - n])
  {
    if s == [] || !IsSpace(s[|s| - 1]) then 0 else 1 + TrailRun(s[..|s| - 1])
  }

  /** No two whitespace characters stand next to each other. */
  predicate NoDoubleSpace(s: string) {
    forall i :: 0 <= i < |s| - 1 ==> !(IsSpace(s[i]) && IsSpace(s[i + 1]))
  }

  lemma NoDoubleSpaceSuffix(s: string, k: nat)
    requires k <= |s|
    ensures NoDoubleSpace(s) ==> NoDoubleSpace(s[k..])
  {
    forall i | 0 <= i < |s[k..]| - 1 && NoDoubleSpace(s) ensures !(IsSpace(s[k..][i]) && IsSpace(s[k..][i + 1])) {
      assert s[k..][i] == s[k + i] && s[k..][i + 1] == s[k + i + 1];
    }
  }

  /** `re.sub(r'\s+', ' ', text)`: every maximal whitespace run becomes one space. */
  function CollapseSpaces(s: string): (r: string)
    decreases |s|
    ensures |r| <= |s| && (|r| == 0 <==> |s| == 0)
    ensures |r| > 0 ==> (IsSpace(r[0]) <==> IsSpace(s[0]))
    ensures forall i :: 0 <= i < |r| ==> r[i] == ' ' || (!IsSpace(r[i]) && r[i] in s)
    ensures NoDoubleSpace(r)
  {
    if s == [] then []
    else if IsSpace(s[0]) then
      var rest := s[SpaceRun(s)..];
      var tail := CollapseSpaces(rest);
      assert forall x :: x in rest ==> x in s;
      [' '] + tail
    else
      var tail := CollapseSpaces(s[1..]);
      assert forall x :: x in s[1..] ==> x in s;
      [s[0]] + tail
  }

  /** The collapsed text ends with whitespace exactly when the input does. */
  lemma {:induction false} CollapseEnds(s: string)
    ensures |CollapseSpaces(s)| > 0 ==> (IsSpace(CollapseSpaces(s)[|CollapseSpaces(s)| - 1]) <==> IsSpace(s[|s| - 1]))
    decreases |s|
  {
    if s != [] {
      var k := if IsSpace(s[0]) then SpaceRun(s) else 1;
      var rest := s[k..];
      CollapseEnds(rest);
      if rest != [] {
        assert rest[|rest| - 1] == s[|s| - 1];
      } else if IsSpace(s[0]) {
        assert IsSpace(s[|s| - 1]);
      }
    }
  }

  /** The first character after the leading whitespace is '-' or '/'. */
  predicate SepAfterSpaces(s: string) {
    SpaceRun(s) < |s| && IsSep(s[SpaceRun(s)])
  }

  /** `re.sub(r'\s*([-/])\s*', r'\1', text)` as the regular-expression engine
      runs it: scanning from the left, a (possibly empty) whitespace run followed
      by '-' or '/' is replaced, together with the whitespace after the
      separator, by the separator alone; any other character is copied. */
  function StripAroundSeps(s: string): (r: string)
    decreases |s|
    ensures |r| <= |s|
  {
    if s == [] then []
    else
      var j := SpaceRun(s);
      if j < |s| && IsSep(s[j]) then
        var rest := s[j + 1..];
        [s[j]] + StripAroundSeps(rest[SpaceRun(rest)..])
      else [s[0]] + StripAroundSeps(s[1..])
  }

  /** The index at which the scan resumes after the separator it emitted first. */
  function ResumeAt(s: string): (k: nat)
    requires SepAfterSpaces(s)
    ensures SpaceRun(s) < k <= |s|
    ensures forall i :: SpaceRun(s) < i < k ==> IsSpace(s[i])
    ensures k < |s| ==> !IsSpace(s[k])
  {
    var j := SpaceRun(s);
    var rest := s[j + 1..];
    assert forall i :: j < i < j + 1 + SpaceRun(rest) ==> s[i] == rest[i - j - 1];
    j + 1 + SpaceRun(rest)
  }

  /** The character one step of the scan emits: the separator after the leading
      whitespace, or else the first character. */
  function Emit(s: string): (c: char)
    requires s != []
    ensures c in s
    ensures IsSpace(c) ==> IsSpace(s[0])
    ensures IsSep(c) ==> SepAfterSpaces(s)
  {
    if SepAfterSpaces(s) then s[SpaceRun(s)] else s[0]
  }

  /** Where the scan goes on after one step. */
  function Next(s: string): (k: nat)
    requires s != []
    ensures 1 <= k <= |s|
  {
    if SepAfterSpaces(s) then ResumeAt(s) else 1
  }

  /** One step of the scan. */
  lemma SepsStep(s: string)
    requires s != []
    ensures StripAroundSeps(s) == [Emit(s)] + StripAroundSeps(s[Next(s)..])
  {
    if SepAfterSpaces(s) {
      var rest := s[SpaceRun(s) + 1..];
      assert rest[SpaceRun(rest)..] == s[ResumeAt(s)..];
    }
  }

  /** The scan only copies characters of its input. */
  lemma {:induction false} SepsChars(s: string)
    ensures forall i :: 0 <= i < |StripAroundSeps(s)| ==> StripAroundSeps(s)[i] in s
    decreases |s|
  {
    if s != [] {
      var r, k := StripAroundSeps(s), Next(s);
      var tail := StripAroundSeps(s[k..]);
      SepsStep(s);
      SepsChars(s[k..]);
      forall i | 0 <= i < |r| ensures r[i] in s {
        if i > 0 {
          assert r[i] == tail[i - 1];
          var m :| 0 <= m < |s[k..]| && s[k..][m] == tail[i - 1];
          assert s[k + m] == r[i];
        }
      }
    }
  }

  /** What the scan emits first: whitespace only if the input starts with
      whitespace, and a separator only if one follows the leading whitespace. */
  lemma SepsHead(s: string)
    ensures |StripAroundSeps(s)| > 0 && IsSpace(StripAroundSeps(s)[0]) ==> IsSpace(s[0])
    ensures |StripAroundSeps(s)| > 0 && IsSep(StripAroundSeps(s)[0]) ==> SepAfterSpaces(s)
  {
    if s != [] {
      SepsStep(s);
    }
  }

  /** A whitespace character that the scan copies is never followed by a separator. */
  lemma SpaceThenNoSep(s: string)
    requires s != [] && IsSpace(Emit(s)) && |s| > 1
    ensures !SepAfterSpaces(s[Next(s)..])
  {
    assert SpaceRun(s) == 1 + SpaceRun(s[1..]);
  }

  /** After the scan no whitespace stands next to '-' or '/'. */
  lemma {:induction false} SepsTight(s: string)
    ensures forall i :: 0 <= i < |StripAroundSeps(s)| - 1 ==>
              !(IsSpace(StripAroundSeps(s)[i]) && IsSep(StripAroundSeps(s)[i + 1]))
              && !(IsSep(StripAroundSeps(s)[i]) && IsSpace(StripAroundSeps(s)[i + 1]))
    decreases |s|
  {
    if s != [] {
      var r, k := StripAroundSeps(s), Next(s);
      var tail := StripAroundSeps(s[k..]);
      SepsStep(s);
      SepsTight(s[k..]);
      SepsHead(s[k..]);
      if IsSpace(Emit(s)) && |s| > 1 {
        SpaceThenNoSep(s);
      }
      forall i | 0 <= i < |r| - 1
        ensures !(IsSpace(r[i]) && IsSep(r[i + 1])) && !(IsSep(r[i]) && IsSpace(r[i + 1]))
      {
        if i > 0 {
          assert r[i] == tail[i - 1] && r[i + 1] == tail[i];
        }
      }
    }
  }

  /** Without doubled whitespace in the input there is none in the output. */
  lemma {:induction false} SepsNoDouble(s: string)
    requires NoDoubleSpace(s)
    ensures NoDoubleSpace(StripAroundSeps(s))
    decreases |s|
  {
    if s != [] {
      var r, k := StripAroundSeps(s), Next(s);
      var tail := StripAroundSeps(s[k..]);
      SepsStep(s);
      NoDoubleSpaceSuffix(s, k);
      SepsNoDouble(s[k..]);
      SepsHead(s[k..]);
      forall i | 0 <= i < |r| - 1 ensures !(IsSpace(r[i]) && IsSpace(r[i + 1])) {
        if i > 0 {
          assert r[i] == tail[i - 1] && r[i + 1] == tail[i];
        }
      }
    }
  }

  /** `str.strip()`: the text between the leading and the trailing whitespace. */
  function Strip(s: string): (r: string)
    ensures SpaceRun(s) + |r| <= |s| && r == s[SpaceRun(s)..SpaceRun(s) + |r|]
    ensures |r| > 0 ==> !IsSpace(r[0]) && !IsSpace(r[|r| - 1])
    ensures r == [] <==> forall i :: 0 <= i < |s| ==> IsSpace(s[i])
    ensures forall i :: SpaceRun(s) + |r| <= i < |s| ==> IsSpace(s[i])
  {
    var t := s[SpaceRun(s)..];
    TrailAfter(s, SpaceRun(s));
    t[..|t| - TrailRun(t)]
  }

  /** What follows the kept middle of `s[k..]` is whitespace. */
  lemma TrailAfter(s: string, k: nat)
    requires k <= |s|
    ensures forall i :: k + |s[k..]| - TrailRun(s[k..]) <= i < |s| ==> IsSpace(s[i])
  {
    var t := s[k..];
    forall i | k + |t| - TrailRun(t) <= i < |s|
      ensures IsSpace(s[i])
    {
      assert s[i] == t[i - k];
    }
  }

  /** `clean_text(text)`. */
  function CleanText(text: string): string {
    Strip(StripAroundSeps(CollapseSpaces(ReplaceSpecial(Lower(text)))))
  }

  /** A character `clean_text` can produce: a lower-case word character, a space,
      '-' or '/'. */
  predicate CleanChar(c: char) {
    'a' <= c <= 'z' || '0' <= c <= '9' || c == '_' || c == ' ' || IsSep(c)
  }

  /** Two neighbours in cleaned text: no doubled whitespace and no whitespace next
      to a separator. */
  predicate PairOk(a: char, b: char) {
    !(IsSpace(a) && IsSpace(b)) && !(IsSpace(a) && IsSep(b)) && !(IsSep(a) && IsSpace(b))
  }

  /** The shape of `clean_text`'s output. */
  predicate CleanForm(s: string) {
    && (forall i :: 0 <= i < |s| ==> CleanChar(s[i]))
    && (forall i :: 0 <= i < |s| - 1 ==> PairOk(s[i], s[i + 1]))
    && (|s| > 0 ==> !IsSpace(s[0]) && !IsSpace(s[|s| - 1]))
  }

  /** Lower-casing and the character replacement leave only clean characters
      and whitespace. */
  lemma ReplacedChars(text: string)
    ensures forall i :: 0 <= i < |ReplaceSpecial(Lower(text))| ==>
              CleanChar(ReplaceSpecial(Lower(text))[i]) || IsSpace(ReplaceSpecial(Lower(text))[i])
  {
    var a := Lower(text);
    var b := ReplaceSpecial(a);
    forall i | 0 <= i < |b| ensures CleanChar(b[i]) || IsSpace(b[i]) {
      if b[i] == a[i] {
        assert !IsUpper(a[i]);
      }
    }
  }

  /** Collapsing leaves clean characters and single spaces. */
  lemma CollapsedClean(b: string)
    requires forall i :: 0 <= i < |b| ==> CleanChar(b[i]) || IsSpace(b[i])
    ensures forall i :: 0 <= i < |CollapseSpaces(b)| ==> CleanChar(CollapseSpaces(b)[i])
    ensures NoDoubleSpace(CollapseSpaces(b))
  {
    var c := CollapseSpaces(b);
    forall i | 0 <= i < |c| ensures CleanChar(c[i]) {
      if c[i] != ' ' {
        var k :| 0 <= k < |b| && b[k] == c[i];
      }
    }
  }

  /** The separator scan keeps clean characters and makes all neighbours fit. */
  lemma ScannedClean(c: string)
    requires forall i :: 0 <= i < |c| ==> CleanChar(c[i])
    requires NoDoubleSpace(c)
    ensures forall i :: 0 <= i < |StripAroundSeps(c)| ==> CleanChar(StripAroundSeps(c)[i])
    ensures forall i :: 0 <= i < |StripAroundSeps(c)| - 1 ==>
              PairOk(StripAroundSeps(c)[i], StripAroundSeps(c)[i + 1])
  {
    var d := StripAroundSeps(c);
    SepsChars(c);
    forall i | 0 <= i < |d| ensures CleanChar(d[i]) {
      var k :| 0 <= k < |c| && c[k] == d[i];
    }
    SepsTight(c);
    SepsNoDouble(c);
  }

  /** Stripping a text whose characters and neighbours are clean gives clean text. */
  lemma StrippedClean(d: string)
    requires forall i :: 0 <= i < |d| ==> CleanChar(d[i])
    requires forall i :: 0 <= i < |d| - 1 ==> PairOk(d[i], d[i + 1])
    ensures CleanForm(Strip(d))
  {
    var e := Strip(d);
    var o := SpaceRun(d);
    forall i | 0 <= i < |e| ensures CleanChar(e[i]) {
      assert e[i] == d[o + i];
    }
    forall i | 0 <= i < |e| - 1 ensures PairOk(e[i], e[i + 1]) {
      assert e[i] == d[o + i] && e[i + 1] == d[o + i + 1];
    }
  }

  /** Whatever the input, the output of `clean_text` is lower-case, made of word
      characters, spaces, '-' and '/' only, has no leading or trailing space, no
      doubled space and no space next to '-' or '/'. */
  lemma CleanTextIsClean(text: string)
    ensures CleanForm(CleanText(text))
  {
    var b := ReplaceSpecial(Lower(text));
    ReplacedChars(text);
    CollapsedClean(b);
    ScannedClean(CollapseSpaces(b));
    StrippedClean(StripAroundSeps(CollapseSpaces(b)));
  }

  /** On clean text, the whitespace collapse changes nothing. */
  lemma {:induction false} CollapseFixesClean(s: string)
    requires forall i :: 0 <= i < |s| ==> !IsSpace(s[i]) || s[i] == ' '
    requires NoDoubleSpace(s)
    ensures CollapseSpaces(s) == s
    decreases |s|
  {
    if s != [] {
      NoDoubleSpaceSuffix(s, 1);
      if IsSpace(s[0]) {
        assert |s| > 1 ==> !IsSpace(s[1]);
        assert SpaceRun(s) == 1;
      }
      CollapseFixesClean(s[1..]);
    }
  }

  /** On clean text, the separator rule changes nothing. */
  lemma {:induction false} SepsFixClean(s: string)
    requires forall i :: 0 <= i < |s| - 1 ==> PairOk(s[i], s[i + 1])
    ensures StripAroundSeps(s) == s
    decreases |s|
  {
    if s != [] {
      assert forall i :: 0 <= i < |s[1..]| - 1 ==> PairOk(s[1..][i], s[1..][i + 1]) by {
        forall i | 0 <= i < |s[1..]| - 1 ensures PairOk(s[1..][i], s[1..][i + 1]) {
          assert s[1..][i] == s[i + 1] && s[1..][i + 1] == s[i + 2];
        }
      }
      SepsFixClean(s[1..]);
      if IsSpace(s[0]) {
        assert |s| > 1 ==> !IsSpace(s[1]) && !IsSep(s[1]);
        assert SpaceRun(s) == 1;
      } else if IsSep(s[0]) {
        assert SpaceRun(s[1..]) == 0;
        assert s[1..][0..] == s[1..];
      }
    }
  }

  /** Clean characters are lower-case and survive the replacement. */
  lemma CleanCharsFixed(s: string)
    requires forall i :: 0 <= i < |s| ==> CleanChar(s[i])
    ensures ReplaceSpecial(Lower(s)) == s
  {
    assert IsLowerString(s);
    LowerOfLower(s);
    assert forall i :: 0 <= i < |s| ==> Kept(s[i]);
  }

  /** Text without whitespace at either end is its own strip. */
  lemma StripFixed(s: string)
    requires |s| > 0 ==> !IsSpace(s[0]) && !IsSpace(s[|s| - 1])
    ensures Strip(s) == s
  {
    assert SpaceRun(s) == 0;
    assert TrailRun(s) == 0;
  }

  /** Clean text is a fixed point of `clean_text`. */
  lemma CleanTextFixesClean(s: string)
    requires CleanForm(s)
    ensures CleanText(s) == s
  {
    CleanCharsFixed(s);
    CollapseFixesClean(s);
    SepsFixClean(s);
    StripFixed(s);
  }

  /** Cleaning twice is cleaning once (the job text is cleaned before it is
      handed to the skill extraction, which cleans it again). */
  lemma CleanTextIdempotent(text: string)
    ensures CleanText(CleanText(text)) == CleanText(text)
  {
    CleanTextIsClean(text);
    CleanTextFixesClean(CleanText(text));
  }
}
