/**
 * The JavaScript string primitives the adapter and the queue-page bridge
 * rely on: `indexOf`, `lastIndexOf`, `substring` and `String(v)`. Positions
 * count Dafny characters; JavaScript counts UTF-16 code units, which differ
 * only for characters outside the Basic Multilingual Plane, and positions
 * here are only used to cut strings.
 */
module JsString {
  import opened Wrappers

  /** `pat` occurs in `s` starting at index `i`. */
  predicate OccursAt(s: string, pat: string, i: int) {
    0 <= i && i + |pat| <= |s| && s[i..i + |pat|] == pat
  }

  /** `s` contains `pat` somewhere. */
  ghost predicate Contains(s: string, pat: string) {
    exists i :: OccursAt(s, pat, i)
  }

  /** The first occurrence of `pat` at or after `k`, or -1. */
  function IndexFrom(s: string, pat: string, k: nat): (r: int)
    ensures r == -1 || (k <= r && OccursAt(s, pat, r))
    ensures forall j :: k <= j && (r == -1 || j < r) ==> !OccursAt(s, pat, j)
    decreases |s| - k
  {
    if k + |pat| > |s| then -1
    else if s[k..k + |pat|] == pat then k
    else IndexFrom(s, pat, k + 1)
  }

  /** `s.indexOf(pat)`: the first occurrence, or -1 when there is none. */
  function IndexOf(s: string, pat: string): (r: int)
    ensures r == -1 <==> !Contains(s, pat)
    ensures r != -1 ==> OccursAt(s, pat, r) && forall j :: 0 <= j < r ==> !OccursAt(s, pat, j)
  {
    IndexFrom(s, pat, 0)
  }

  /** The last occurrence of `pat` at or before `k`, or -1. */
  function LastIndexFrom(s: string, pat: string, k: int): (r: int)
    ensures r == -1 || (0 <= r <= k && OccursAt(s, pat, r))
    ensures forall j :: (r < j <= k) ==> !OccursAt(s, pat, j)
    decreases k + 1
  {
    if k < 0 then -1
    else if k + |pat| <= |s| && s[k..k + |pat|] == pat then k
    else LastIndexFrom(s, pat, k - 1)
  }

  /** `s.lastIndexOf(pat)`: the last occurrence, or -1 when there is none. */
  function LastIndexOf(s: string, pat: string): (r: int)
    ensures r == -1 <==> !Contains(s, pat)
    ensures r != -1 ==> OccursAt(s, pat, r) && forall j :: r < j ==> !OccursAt(s, pat, j)
  {
    LastIndexFrom(s, pat, |s| - |pat|)
  }

  /** `i` is the position of the first `c` in `s`. */
  predicate IsFirst(s: string, c: char, i: int) {
    0 <= i < |s| && s[i] == c && forall k :: 0 <= k < i ==> s[k] != c
  }

  /** `j` is the position of the last `c` in `s`. */
  predicate IsLast(s: string, c: char, j: int) {
    0 <= j < |s| && s[j] == c && forall k :: j < k < |s| ==> s[k] != c
  }

  /** `s.substring(start, end)`: both ends clamped to the string, swapped when out of order. */
  function Substring(s: string, start: int, end: int): string {
    var a := Clamp(start, |s|);
    var b := Clamp(end, |s|);
    if a <= b then s[a..b] else s[b..a]
  }

  /**
   * `substring` does not care about the order of its ends, reads ends past
   * the string as its length, and is plain slicing on ordered ends inside it.
   */
  lemma SubstringEnds(s: string, start: int, end: int)
    ensures Substring(s, start, end) == Substring(s, end, start)
    ensures end > |s| ==> Substring(s, start, end) == Substring(s, start, |s|)
    ensures start < 0 ==> Substring(s, start, end) == Substring(s, 0, end)
    ensures 0 <= start <= end <= |s| ==> Substring(s, start, end) == s[start..end]
  {
  }

  /**
   * `String(v)` (also `'' + v`) of a property that is a string or undefined.
   * The absent value reads as "undefined", so it is told apart from every
   * present value except the string "undefined" itself.
   */
  function StringOf(v: Option<string>): (r: string)
    ensures v.Some? ==> r == v.value
    ensures r == "undefined" <==> v.None? || v.value == "undefined"
  {
    if v.Some? then v.value else "undefined"
  }

  function Clamp(x: int, n: nat): (r: nat)
    ensures r <= n
  {
    if x < 0 then 0 else if x > n then n else x
  }

  /** A one-character pattern occurs exactly where that character stands. */
  lemma CharOccurs(s: string, c: char, i: int)
    ensures OccursAt(s, [c], i) <==> 0 <= i < |s| && s[i] == c
  {
    if 0 <= i < |s| {
      assert s[i..i + 1] == [s[i]];
    }
  }

  /** Searching for a one-character pattern is searching for the character. */
  lemma ContainsChar(s: string, c: char)
    ensures Contains(s, [c]) <==> c in s
  {
    if c in s {
      var i :| 0 <= i < |s| && s[i] == c;
      CharOccurs(s, c, i);
    }
    if Contains(s, [c]) {
      var i :| OccursAt(s, [c], i);
      CharOccurs(s, c, i);
    }
  }

  /** `indexOf` of a single character finds its first position. */
  lemma IndexOfChar(s: string, c: char)
    ensures IndexOf(s, [c]) == -1 <==> c !in s
    ensures IndexOf(s, [c]) != -1 ==> IsFirst(s, c, IndexOf(s, [c]))
  {
    ContainsChar(s, c);
    var r := IndexOf(s, [c]);
    if r != -1 {
      CharOccurs(s, c, r);
      forall k | 0 <= k < r
        ensures s[k] != c
      {
        CharOccurs(s, c, k);
      }
    }
  }

  /** `lastIndexOf` of a single character finds its last position. */
  lemma LastIndexOfChar(s: string, c: char)
    ensures LastIndexOf(s, [c]) == -1 <==> c !in s
    ensures LastIndexOf(s, [c]) != -1 ==> IsLast(s, c, LastIndexOf(s, [c]))
  {
    ContainsChar(s, c);
    var r := LastIndexOf(s, [c]);
    if r != -1 {
      CharOccurs(s, c, r);
      forall k | r < k < |s|
        ensures s[k] != c
      {
        CharOccurs(s, c, k);
      }
    }
  }

  /** A string that lacks the first character of a pattern does not contain it. */
  lemma MissingFirstChar(s: string, pat: string)
    requires |pat| > 0 && pat[0] !in s
    ensures !Contains(s, pat)
  {
  }

  /** The first `c` of `a + [c] + b` is the one after `a` when `a` has none. */
  lemma IndexOfFirstChar(a: string, c: char, b: string)
    requires c !in a
    ensures IndexOf(a + [c] + b, [c]) == |a|
  {
    var s := a + [c] + b;
    CharOccurs(s, c, |a|);
    var r := IndexOf(s, [c]);
    CharOccurs(s, c, r);
  }

  /** `s` starts with `p` exactly when `s.indexOf(p)` is 0. */
  lemma IndexOfZero(s: string, p: string)
    ensures IndexOf(s, p) == 0 <==> OccursAt(s, p, 0)
  {
  }

  /** The occurrences in a suffix are the occurrences in the whole string, shifted. */
  lemma OccursInSuffix(s: string, pat: string, i: nat)
    requires i <= |s|
    ensures forall j :: OccursAt(s[i..], pat, j) <==> (0 <= j && OccursAt(s, pat, i + j))
  {
    forall j
      ensures OccursAt(s[i..], pat, j) <==> (0 <= j && OccursAt(s, pat, i + j))
    {
      if 0 <= j && j + |pat| <= |s| - i {
        assert s[i..][j..j + |pat|] == s[i + j..i + j + |pat|];
      }
    }
  }
}
