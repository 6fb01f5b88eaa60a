/** Small value types and string operations shared by the client, the server and
    the worker models. Case folding is modelled over ASCII only (an approximation
    of the Unicode behaviour of `toLowerCase` and `str.lower`). */
module Common {

  datatype Option<+T> = None | Some(value: T)

  predicate IsUpper(c: char) { 'A' <= c <= 'Z' }

  /** ASCII lower-casing of one character. */
  function LowerChar(c: char): (r: char)
    ensures !IsUpper(r)
    ensures !IsUpper(c) ==> r == c
    ensures IsUpper(c) ==> r as int == c as int + 32
  {
    if IsUpper(c) then (c as int + 32) as char else c
  }

  predicate IsLowerString(s: string) {
    forall i :: 0 <= i < |s| ==> !IsUpper(s[i])
  }

  /** `s.toLowerCase()` / `s.lower()`, restricted to ASCII letters. */
  function Lower(s: string): (r: string)
    ensures |r| == |s| && IsLowerString(r)
    ensures forall i :: 0 <= i < |s| && !IsUpper(s[i]) ==> r[i] == s[i]
  {
    seq(|s|, i requires 0 <= i < |s| => LowerChar(s[i]))
  }

  lemma LowerOfLower(s: string)
    requires IsLowerString(s)
    ensures Lower(s) == s
  {
  }

  lemma LowerIdempotent(s: string)
    ensures Lower(Lower(s)) == Lower(s)
  {
    LowerOfLower(Lower(s));
  }

  /** `hay.includes(needle)` in JavaScript, `needle in hay` in Python:
      the needle occurs at some position of the haystack. */
  predicate Contains(hay: string, needle: string)
    decreases |hay|
  {
    needle <= hay || (|hay| > 0 && Contains(hay[1..], needle))
  }

  /** Independent statement of substring search: an occurrence at index i. */
  ghost predicate OccursAt(hay: string, needle: string, i: int) {
    0 <= i && i + |needle| <= |hay| && hay[i..i + |needle|] == needle
  }

  /** Dropping the first character moves every occurrence one place left. */
  lemma OccursShift(hay: string, needle: string, i: nat)
    requires |hay| > 0
    ensures OccursAt(hay[1..], needle, i) <==> OccursAt(hay, needle, i + 1)
  {
    if 0 <= i && i + |needle| <= |hay| - 1 {
      assert hay[1..][i..i + |needle|] == hay[i + 1..i + 1 + |needle|];
    }
  }

  lemma {:induction false} ContainsIffOccurs(hay: string, needle: string)
    ensures Contains(hay, needle) <==> exists i :: OccursAt(hay, needle, i)
    decreases |hay|
  {
    if needle <= hay {
      assert OccursAt(hay, needle, 0);
    } else if |hay| == 0 {
      assert forall i :: !OccursAt(hay, needle, i);
    } else {
      ContainsIffOccurs(hay[1..], needle);
      if Contains(hay[1..], needle) {
        var i :| OccursAt(hay[1..], needle, i);
        OccursShift(hay, needle, i);
      } else {
        assert !OccursAt(hay, needle, 0);
        forall i | OccursAt(hay, needle, i)
          ensures false
        {
          assert i > 0;
          OccursShift(hay, needle, i - 1);
        }
      }
    }
  }

  /** Every string contains the empty string. */
  lemma {:induction false} ContainsEmpty(hay: string)
    ensures Contains(hay, "")
  {
    assert [] <= hay;
  }

  /** An occurrence is a substring: whatever the needle contains, so does the haystack. */
  lemma {:induction false} ContainsChar(hay: string, needle: string, c: char)
    requires Contains(hay, needle) && c in needle
    ensures c in hay
    decreases |hay|
  {
    if needle <= hay {
      var k :| 0 <= k < |needle| && needle[k] == c;
      assert hay[k] == c;
    } else {
      ContainsChar(hay[1..], needle, c);
    }
  }

  /** A one-character needle is contained exactly when that character occurs. */
  lemma ContainsSingle(hay: string, c: char)
    ensures Contains(hay, [c]) <==> c in hay
  {
    if c in hay {
      var i :| 0 <= i < |hay| && hay[i] == c;
      assert OccursAt(hay, [c], i);
      ContainsIffOccurs(hay, [c]);
    } else if Contains(hay, [c]) {
      ContainsChar(hay, [c], c);
    }
  }

  /** A character of the needle that the haystack lacks rules the needle out. */
  lemma MissingCharExcludes(hay: string, needle: string, c: char)
    requires c in needle && c !in hay
    ensures !Contains(hay, needle)
  {
    if Contains(hay, needle) {
      ContainsChar(hay, needle, c);
    }
  }

  predicate IsDigit(c: char) { '0' <= c <= '9' }

  function DigitChar(d: nat): (c: char)
    requires d < 10
    ensures IsDigit(c)
  {
    ('0' as int + d) as char
  }

  /** Decimal rendering of a non-negative integer, as `String(n)` gives it. */
  function Decimal(n: nat): (r: string)
    ensures |r| >= 1
    ensures forall i :: 0 <= i < |r| ==> IsDigit(r[i])
    ensures n > 0 ==> r[0] != '0'
  {
    if n < 10 then [DigitChar(n)] else Decimal(n / 10) + [DigitChar(n % 10)]
  }

  function DigitValue(c: char): (d: nat)
    requires IsDigit(c)
    ensures d < 10 && DigitChar(d) == c
  {
    c as int - '0' as int
  }

  /** The value a string of decimal digits denotes. */
  function DecimalValue(s: string): nat
    requires forall i :: 0 <= i < |s| ==> IsDigit(s[i])
  {
    if s == [] then 0 else 10 * DecimalValue(s[..|s| - 1]) + DigitValue(s[|s| - 1])
  }

  lemma {:induction false} DecimalRoundTrip(n: nat)
    ensures DecimalValue(Decimal(n)) == n
  {
    if n >= 10 {
      DecimalRoundTrip(n / 10);
      var s := Decimal(n);
      assert s[..|s| - 1] == Decimal(n / 10);
    }
  }

  lemma DecimalInjective(m: nat, n: nat)
    requires Decimal(m) == Decimal(n)
    ensures m == n
  {
    DecimalRoundTrip(m);
    DecimalRoundTrip(n);
  }

  /** `s.filter(keep)`: the elements that satisfy `keep`, in their original order. */
  function Filter<T>(s: seq<T>, keep: T -> bool): (r: seq<T>)
    ensures |r| <= |s|
    ensures forall k :: 0 <= k < |r| ==> r[k] in s && keep(r[k])
    ensures forall k :: 0 <= k < |s| && keep(s[k]) ==> s[k] in r
  {
    if s == [] then []
    else
      var rest := Filter(s[1..], keep);
      if keep(s[0]) then [s[0]] + rest else rest
  }

  /** `idx` lists, in strictly increasing order, positions of `s` whose elements make up `r`. */
  ghost predicate SubsequenceAt<T>(r: seq<T>, s: seq<T>, idx: seq<nat>) {
    && |idx| == |r|
    && (forall k :: 0 <= k < |idx| ==> idx[k] < |s| && r[k] == s[idx[k]])
    && (forall k, l :: 0 <= k < l < |idx| ==> idx[k] < idx[l])
  }

  /** The filtered list is the input at exactly the kept positions, in order. */
  lemma {:induction false} FilterPositions<T>(s: seq<T>, keep: T -> bool) returns (idx: seq<nat>)
    ensures SubsequenceAt(Filter(s, keep), s, idx)
    ensures forall p :: 0 <= p < |s| ==> (p in idx <==> keep(s[p]))
  {
    if s == [] {
      idx := [];
    } else {
      var tail := FilterPositions(s[1..], keep);
      var shifted := ShiftPositions(Filter(s[1..], keep), s, tail);
      if keep(s[0]) {
        idx := ConsPosition(Filter(s[1..], keep), s, shifted);
      } else {
        idx := shifted;
      }
    }
  }

  /** Putting position 0 in front of positions that all lie further on. */
  lemma ConsPosition<T>(r: seq<T>, s: seq<T>, shifted: seq<nat>) returns (idx: seq<nat>)
    requires |s| > 0 && SubsequenceAt(r, s, shifted)
    requires forall k :: 0 <= k < |shifted| ==> shifted[k] > 0
    ensures idx == [0] + shifted
    ensures SubsequenceAt([s[0]] + r, s, idx)
  {
    idx := [0] + shifted;
  }

  /** Positions in the tail `s[1..]` are positions one further in `s`. */
  lemma ShiftPositions<T>(r: seq<T>, s: seq<T>, tail: seq<nat>) returns (shifted: seq<nat>)
    requires |s| > 0 && SubsequenceAt(r, s[1..], tail)
    ensures SubsequenceAt(r, s, shifted)
    ensures forall k :: 0 <= k < |shifted| ==> shifted[k] > 0
    ensures forall p :: 1 <= p < |s| ==> (p in shifted <==> p - 1 in tail)
  {
    shifted := seq(|tail|, k requires 0 <= k < |tail| => tail[k] + 1);
    forall p | 1 <= p < |s| ensures p in shifted <==> p - 1 in tail {
      if p - 1 in tail {
        var k :| 0 <= k < |tail| && tail[k] == p - 1;
        assert shifted[k] == p;
      }
    }
  }

  /** Filtering with a predicate every element satisfies returns the input. */
  lemma {:induction false} FilterAll<T>(s: seq<T>, keep: T -> bool)
    requires forall k :: 0 <= k < |s| ==> keep(s[k])
    ensures Filter(s, keep) == s
  {
    if s != [] {
      FilterAll(s[1..], keep);
    }
  }

  /** A stronger predicate filters the already filtered list to the same result. */
  lemma {:induction false} FilterNarrows<T>(s: seq<T>, weak: T -> bool, strong: T -> bool)
    requires forall k :: 0 <= k < |s| && strong(s[k]) ==> weak(s[k])
    ensures Filter(s, strong) == Filter(Filter(s, weak), strong)
  {
    if s != [] {
      FilterNarrows(s[1..], weak, strong);
    }
  }

  /** No element occurs twice. */
  predicate Distinct<T(==)>(s: seq<T>) {
    forall i, j :: 0 <= i < j < |s| ==> s[i] != s[j]
  }

  lemma {:induction false} FilterDistinct<T>(s: seq<T>, keep: T -> bool)
    requires Distinct(s)
    ensures Distinct(Filter(s, keep))
  {
    if s != [] {
      assert Distinct(s[1..]) by {
        forall i, j | 0 <= i < j < |s[1..]| ensures s[1..][i] != s[1..][j] {
          assert s[1..][i] == s[i + 1] && s[1..][j] == s[j + 1];
        }
      }
      FilterDistinct(s[1..], keep);
      assert s[0] !in s[1..] by {
        forall k | 0 <= k < |s[1..]| ensures s[1..][k] != s[0] {
          assert s[1..][k] == s[k + 1];
        }
      }
    }
  }

  lemma {:induction false} FilterAppend<T>(a: seq<T>, b: seq<T>, keep: T -> bool)
    ensures Filter(a + b, keep) == Filter(a, keep) + Filter(b, keep)
  {
    if a != [] {
      assert (a + b)[1..] == a[1..] + b;
      FilterAppend(a[1..], b, keep);
    } else {
      assert a + b == b;
    }
  }

  /** `path.join(dir, name)` / `os.path.join(dir, name)` for a directory without
      a trailing separator and a relative name. */
  function JoinPath(dir: string, name: string): string {
    dir + "/" + name
  }

  /** The index just past the last '/' of `p`, 0 when there is none. */
  function AfterLastSlash(p: string): (n: nat)
    ensures n <= |p|
    ensures n > 0 ==> p[n - 1] == '/'
    ensures forall i :: n <= i < |p| ==> p[i] != '/'
  {
    if p == [] then 0 else if p[|p| - 1] == '/' then |p| else AfterLastSlash(p[..|p| - 1])
  }

  function TrimTrailingSlashes(p: string): (r: string)
    ensures r <= p
    ensures r == [] || r[|r| - 1] != '/'
  {
    if p != [] && p[|p| - 1] == '/' then TrimTrailingSlashes(p[..|p| - 1]) else p
  }

  predicate AllSlashes(p: string) {
    forall i :: 0 <= i < |p| ==> p[i] == '/'
  }

  /** `os.path.dirname(p)` on POSIX: everything up to the last '/', with the
      trailing slashes removed unless nothing but slashes is left. */
  function Dirname(p: string): string {
    var head := p[..AfterLastSlash(p)];
    if head != [] && !AllSlashes(head) then TrimTrailingSlashes(head) else head
  }

  /** The directory of a file directly inside `dir` is `dir`. */
  lemma DirnameOfJoin(dir: string, name: string)
    requires dir != [] && dir[|dir| - 1] != '/'
    requires '/' !in name
    ensures Dirname(JoinPath(dir, name)) == dir
  {
    var p := JoinPath(dir, name);
    var n := AfterLastSlash(p);
    assert p[|dir|] == '/';
    assert forall i :: |dir| < i < |p| ==> p[i] == name[i - |dir| - 1];
    assert n == |dir| + 1;
    var head := p[..n];
    assert head == dir + "/";
    assert head[|dir| - 1] != '/';
    assert !AllSlashes(head);
    assert head[..|head| - 1] == dir;
    assert TrimTrailingSlashes(head) == TrimTrailingSlashes(dir) == dir;
  }
}
