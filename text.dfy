/**
 * Python `str` operations used by the retrieval core, on `seq<char>`:
 * `strip`, `lower`, `split()`, `splitlines`, `startswith`/`endswith`,
 * substring search and `sep.join`.
 */
module Text {

  /** The characters for which Python's `str.isspace()` is true. */
  predicate IsSpace(c: char) {
    ('\t' <= c <= '\r') || ('\U{1C}' <= c <= ' ') || ('\U{85}' <= c && IsWideSpace(c))
  }

  /** The whitespace characters outside ASCII. */
  predicate IsWideSpace(c: char) {
    c == '\U{85}' || c == '\U{A0}' || c == '\U{1680}' || ('\U{2000}' <= c <= '\U{200A}')
    || c == '\U{2028}' || c == '\U{2029}' || c == '\U{202F}' || c == '\U{205F}' || c == '\U{3000}'
  }

  /** The line boundaries recognised by Python's `str.splitlines()`. */
  predicate IsLineBreak(c: char) {
    ('\n' <= c <= '\r') || ('\U{1C}' <= c <= '\U{1E}') || ('\U{85}' <= c && IsWideLineBreak(c))
  }

  /** The line boundaries outside ASCII. */
  predicate IsWideLineBreak(c: char) {
    c == '\U{85}' || c == '\U{2028}' || c == '\U{2029}'
  }

  predicate NoLineBreak(s: string) {
    forall i :: 0 <= i < |s| ==> !IsLineBreak(s[i])
  }

  // ---------------------------------------------------------------- strip

  function StripLeft(s: string): (r: string)
    ensures |r| <= |s| && r == s[|s| - |r|..]
    ensures r == [] || !IsSpace(r[0])
    ensures forall i :: 0 <= i < |s| - |r| ==> IsSpace(s[i])
  {
    if s != [] && IsSpace(s[0]) then
      var r := StripLeft(s[1..]);
      assert s[1..][|s| - 1 - |r|..] == s[|s| - |r|..];
      assert forall i :: 1 <= i < |s| - |r| ==> s[1..][i - 1] == s[i];
      r
    else s
  }

  function StripRight(s: string): (r: string)
    ensures |r| <= |s| && r == s[..|r|]
    ensures r == [] || !IsSpace(r[|r| - 1])
    ensures forall i :: |r| <= i < |s| ==> IsSpace(s[i])
  {
    if s != [] && IsSpace(s[|s| - 1]) then StripRight(s[..|s| - 1]) else s
  }

  /** Neither end of `s` is whitespace. */
  predicate IsStripped(s: string) {
    s == [] || (!IsSpace(s[0]) && !IsSpace(s[|s| - 1]))
  }

  /** Python's `s.strip()`: the longest infix with no whitespace at either end. */
  function Strip(s: string): (r: string)
    ensures IsStripped(r)
    ensures |r| <= |s|
    ensures r == [] <==> forall i :: 0 <= i < |s| ==> IsSpace(s[i])
  {
    StripParts(s);
    StripRight(StripLeft(s))
  }

  /** The stripped string is an infix of the original. */
  lemma StripInfixOf(s: string)
    ensures Contains(s, Strip(s))
  {
    StripParts(s);
  }

  lemma StripParts(s: string)
    ensures IsStripped(StripRight(StripLeft(s)))
    ensures Contains(s, StripRight(StripLeft(s)))
    ensures StripRight(StripLeft(s)) == [] <==> forall i :: 0 <= i < |s| ==> IsSpace(s[i])
  {
    var l := StripLeft(s);
    var r := StripRight(l);
    var off := |s| - |l|;
    StripInfix(s, l, r, off);
    if r == [] {
      StripBlank(s, l, r, off);
    } else {
      assert r[0] == l[0] == s[off];
      assert !IsSpace(s[off]);
    }
  }

  lemma StripInfix(s: string, l: string, r: string, off: nat)
    requires off <= |s| && l == s[off..] && |r| <= |l| && r == l[..|r|]
    ensures Contains(s, r)
  {
    assert s[off..off + |r|] == r;
    OccursContains(s, r, off);
  }

  lemma StripBlank(s: string, l: string, r: string, off: nat)
    requires off <= |s| && l == s[off..] && r == []
    requires forall i :: 0 <= i < off ==> IsSpace(s[i])
    requires forall i :: 0 <= i < |l| ==> IsSpace(l[i])
    ensures forall i :: 0 <= i < |s| ==> IsSpace(s[i])
  {
    forall i | off <= i < |s| ensures IsSpace(s[i]) {
      assert s[i] == l[i - off];
    }
  }

  /** Stripping a string that has no whitespace at either end changes nothing. */
  lemma StripIdentity(s: string)
    requires IsStripped(s)
    ensures Strip(s) == s
  {
  }

  // ---------------------------------------------------------------- case

  /** Lower-casing of one character; only ASCII letters are mapped. */
  function LowerChar(c: char): (d: char)
    ensures ('A' <= c <= 'Z') ==> 'a' <= d <= 'z'
    ensures !('A' <= c <= 'Z') ==> d == c
  {
    if 'A' <= c <= 'Z' then (c as int + 32) as char else c
  }

  /** Python's `s.lower()`, restricted to ASCII letters. */
  function Lower(s: string): (r: string)
    ensures |r| == |s|
    ensures forall i :: 0 <= i < |s| ==> r[i] == LowerChar(s[i])
  {
    seq(|s|, i requires 0 <= i < |s| => LowerChar(s[i]))
  }

  // ---------------------------------------------------------------- affixes and search

  predicate StartsWith(s: string, prefix: string) {
    |prefix| <= |s| && s[..|prefix|] == prefix
  }

  predicate EndsWith(s: string, suffix: string) {
    |suffix| <= |s| && s[|s| - |suffix|..] == suffix
  }

  /** `pat` occurs in `s` starting at index `i`. */
  predicate OccursAt(s: string, pat: string, i: int) {
    0 <= i && i + |pat| <= |s| && s[i..i + |pat|] == pat
  }

  /** Python's `pat in s` (also `re.search` of a pattern without metacharacters). */
  predicate Contains(s: string, pat: string) {
    Find(s, pat, 0) >= 0
  }

  /** `Contains` holds exactly when some occurrence exists. */
  lemma ContainsIff(s: string, pat: string)
    ensures Contains(s, pat) <==> exists i :: OccursAt(s, pat, i)
  {
    FindFirst(s, pat, 0);
    if !Contains(s, pat) {
      assert forall i :: 0 <= i ==> !OccursAt(s, pat, i);
    }
  }

  /** An occurrence at any index makes `Contains` true. */
  lemma OccursContains(s: string, pat: string, i: int)
    requires OccursAt(s, pat, i)
    ensures Contains(s, pat)
  {
    FindFirst(s, pat, 0);
  }

  /** A concatenation starts with its first part and ends with its last. */
  lemma ConcatEnds(a: string, m: string, z: string)
    ensures StartsWith(a + m + z, a) && EndsWith(a + m + z, z)
  {
    assert (a + m + z)[..|a|] == a;
    assert (a + m + z)[|a| + |m|..] == z;
  }

  /** An occurrence in the middle part is one in the whole, shifted by the first part. */
  lemma OccursInMiddle(a: string, b: string, c: string, pat: string, at: int)
    requires OccursAt(b, pat, at)
    ensures OccursAt(a + b + c, pat, |a| + at)
  {
    assert (a + b + c)[|a| + at..|a| + at + |pat|] == b[at..at + |pat|];
  }

  /** An occurrence in the last part is one in the whole, shifted by the first part. */
  lemma OccursInSuffix(a: string, b: string, pat: string, at: int)
    requires OccursAt(b, pat, at)
    ensures OccursAt(a + b, pat, |a| + at)
  {
    assert (a + b)[|a| + at..|a| + at + |pat|] == b[at..at + |pat|];
  }

  /** An occurrence in the first part is one in the whole, at the same index. */
  lemma OccursInPrefix(b: string, c: string, pat: string, at: int)
    requires OccursAt(b, pat, at)
    ensures OccursAt(b + c, pat, at)
  {
    assert (b + c)[at..at + |pat|] == b[at..at + |pat|];
  }

  /** Index of the first occurrence of `pat` at or after `from`, or -1 (Python's `s.find(pat, from)`). */
  function Find(s: string, pat: string, from: nat): (r: int)
    ensures r == -1 || (from <= r && OccursAt(s, pat, r))
    decreases |s| - from
  {
    if from + |pat| > |s| then -1
    else if s[from..from + |pat|] == pat then from
    else Find(s, pat, from + 1)
  }

  /** `Find` returns the first occurrence at or after `from`: none lies before it, and -1 means none at all. */
  lemma {:induction false} FindFirst(s: string, pat: string, from: nat)
    ensures Find(s, pat, from) == -1 ==> forall i :: from <= i ==> !OccursAt(s, pat, i)
    ensures Find(s, pat, from) != -1 ==> forall i :: from <= i < Find(s, pat, from) ==> !OccursAt(s, pat, i)
    decreases |s| - from
  {
    if from + |pat| <= |s| && s[from..from + |pat|] != pat {
      FindFirst(s, pat, from + 1);
    }
  }

  /** Index of the last occurrence of `c`, or -1 (Python's `s.rfind(c)`). */
  function LastIndexOf(s: string, c: char): (r: int)
    ensures -1 <= r < |s|
    ensures r >= 0 ==> s[r] == c
    ensures forall i :: r < i < |s| ==> s[i] != c
  {
    if s == [] then -1
    else if s[|s| - 1] == c then |s| - 1
    else LastIndexOf(s[..|s| - 1], c)
  }

  /** What follows the last `c` (all of `s` when there is none), as `s.split(c)[-1]` and `rpartition` give it. */
  function AfterLast(s: string, c: char): (r: string)
    ensures EndsWith(s, r)
    ensures forall k :: 0 <= k < |r| ==> r[k] != c
  {
    s[LastIndexOf(s, c) + 1..]
  }

  // ---------------------------------------------------------------- splitlines

  /** Length of the longest prefix of `s` without a line boundary. */
  function BreakIndex(s: string): (k: nat)
    ensures k <= |s|
    ensures NoLineBreak(s[..k])
    ensures k < |s| ==> IsLineBreak(s[k])
  {
    if s == [] || IsLineBreak(s[0]) then 0
    else
      var k := 1 + BreakIndex(s[1..]);
      assert s[..k] == [s[0]] + s[1..][..k - 1];
      k
  }

  /**
   * Python's `s.splitlines()`: the lines of `s` without their terminators;
   * "\r\n" is one terminator and a final terminator opens no further line.
   */
  function SplitLines(s: string): (lines: seq<string>)
    ensures forall i :: 0 <= i < |lines| ==> NoLineBreak(lines[i])
    decreases |s|
  {
    if s == [] then []
    else
      var k := BreakIndex(s);
      if k == |s| then [s]
      else
        var next := if s[k] == '\r' && k + 1 < |s| && s[k + 1] == '\n' then k + 2 else k + 1;
        [s[..k]] + SplitLines(s[next..])
  }

  lemma {:induction false} BreakIndexAt(a: string, t: string)
    requires NoLineBreak(a)
    requires t == [] || IsLineBreak(t[0])
    ensures BreakIndex(a + t) == |a|
  {
    if a != [] {
      assert (a + t)[1..] == a[1..] + t;
      BreakIndexAt(a[1..], t);
    }
  }

  /** Python's `sep.join(xs)`. */
  function Join(sep: string, xs: seq<string>): (r: string)
    ensures |xs| == 1 ==> r == xs[0]
    ensures |xs| > 1 ==> r == xs[0] + sep + Join(sep, xs[1..])
  {
    if xs == [] then "" else if |xs| == 1 then xs[0] else xs[0] + sep + Join(sep, xs[1..])
  }

  /**
   * Splitting lines undoes joining them with "\n", provided no line holds a
   * line boundary and the last line is not empty.
   */
  lemma {:induction false} SplitLinesOfJoin(ls: seq<string>)
    requires forall i :: 0 <= i < |ls| ==> NoLineBreak(ls[i])
    requires ls != [] ==> ls[|ls| - 1] != []
    ensures SplitLines(Join("\n", ls)) == ls
  {
    if |ls| == 1 {
      BreakIndexAt(ls[0], []);
      assert ls[0] + [] == ls[0];
    } else if |ls| > 1 {
      var rest := ls[1..];
      assert forall i :: 0 <= i < |rest| ==> rest[i] == ls[i + 1];
      SplitLinesOfJoin(rest);
      SplitLinesCons(ls[0], Join("\n", rest));
      assert Join("\n", ls) == ls[0] + "\n" + Join("\n", rest);
      assert [ls[0]] + rest == ls;
    }
  }

  /** A line followed by "\n" is split off the front. */
  lemma SplitLinesCons(a: string, rest: string)
    requires NoLineBreak(a)
    ensures SplitLines(a + "\n" + rest) == [a] + SplitLines(rest)
  {
    var s := a + "\n" + rest;
    assert s == a + ("\n" + rest);
    BreakIndexAt(a, "\n" + rest);
    assert s[..|a|] == a;
    assert s[|a| + 1..] == rest;
  }

  /** Every element of a join occurs in it. */
  lemma JoinContains(sep: string, xs: seq<string>, i: nat)
    requires i < |xs|
    ensures Contains(Join(sep, xs), xs[i])
  {
    var at := JoinOccurs(sep, xs, i);
    OccursContains(Join(sep, xs), xs[i], at);
  }

  /** Where element `i` of a join starts: after the earlier elements and their separators. */
  lemma {:induction false} JoinOccurs(sep: string, xs: seq<string>, i: nat) returns (at: nat)
    requires i < |xs|
    ensures OccursAt(Join(sep, xs), xs[i], at)
  {
    if |xs| > 1 {
      var rest := Join(sep, xs[1..]);
      if i == 0 {
        assert OccursAt(xs[0], xs[0], 0);
        OccursInPrefix(xs[0], sep, xs[0], 0);
        OccursInPrefix(xs[0] + sep, rest, xs[0], 0);
        at := 0;
      } else {
        assert xs[1..][i - 1] == xs[i];
        var k := JoinOccurs(sep, xs[1..], i - 1);
        OccursInSuffix(xs[0] + sep, rest, xs[i], k);
        at := |xs[0] + sep| + k;
      }
    } else {
      assert OccursAt(Join(sep, xs), xs[i], 0);
      at := 0;
    }
  }

  /** Joining is empty only for no elements or one empty element. */
  lemma {:induction false} JoinEmpty(sep: string, xs: seq<string>)
    requires sep != []
    ensures Join(sep, xs) == [] <==> xs == [] || xs == [[]]
  {
    if |xs| > 1 {
      assert |Join(sep, xs)| >= |sep|;
    }
  }

  // ---------------------------------------------------------------- split()

  /** Length of the longest prefix of `s` without whitespace. */
  function WordLength(s: string): (k: nat)
    ensures k <= |s|
    ensures forall i :: 0 <= i < k ==> !IsSpace(s[i])
    ensures k < |s| ==> IsSpace(s[k])
  {
    if s == [] || IsSpace(s[0]) then 0 else 1 + WordLength(s[1..])
  }

  /** Python's `s.split()` without arguments: the maximal runs of non-whitespace. */
  function Words(s: string): (ws: seq<string>)
    ensures forall i :: 0 <= i < |ws| ==> ws[i] != [] && forall j :: 0 <= j < |ws[i]| ==> !IsSpace(ws[i][j])
    decreases |s|
  {
    if s == [] then []
    else if IsSpace(s[0]) then Words(s[1..])
    else
      var k := WordLength(s);
      [s[..k]] + Words(s[k..])
  }

  /** The distinct lower-cased words of `s`: Python's `set(s.lower().split())`. */
  function Keywords(s: string): (ks: set<string>)
    ensures forall w :: w in ks ==> w != []
  {
    set w | w in Words(Lower(s))
  }
}
