/**
 * ASCII text primitives shared by the two count-query rewriters: the character
 * classes Python's `str.strip()` and the regular-expression classes `\s`, `\w`
 * and `\b` use, case-insensitive (ASCII) comparison, and the Python string
 * searches `str.find` / `str.rfind`.
 */
module Text {

  /** Python's `str.isspace()` and `\s` restricted to ASCII: 9..13, 28..31 and space. */
  predicate IsSpace(c: char) {
    var n := c as int;
    n == 32 || 9 <= n <= 13 || 28 <= n <= 31
  }

  /** `\w` restricted to ASCII. */
  predicate IsWordChar(c: char) {
    'a' <= c <= 'z' || 'A' <= c <= 'Z' || '0' <= c <= '9' || c == '_'
  }

  predicate IsLetter(c: char) {
    'a' <= c <= 'z' || 'A' <= c <= 'Z'
  }

  predicate IsAscii(s: string) {
    forall i :: 0 <= i < |s| ==> s[i] as int < 128
  }

  function Lower(c: char): char {
    if 'A' <= c <= 'Z' then (c as int + 32) as char else c
  }

  function Upper(c: char): char {
    if 'a' <= c <= 'z' then (c as int - 32) as char else c
  }

  /** Python's `str.upper()`, modelled on ASCII text only: outside ASCII it may change the length. */
  function UpperString(s: string): (u: string)
    requires IsAscii(s)
    ensures |u| == |s|
    ensures forall i :: 0 <= i < |s| ==> u[i] == Upper(s[i])
    ensures IsAscii(u)
  {
    if s == [] then [] else [Upper(s[0])] + UpperString(s[1..])
  }

  ghost predicate AllSpaces(s: string) {
    forall i :: 0 <= i < |s| ==> IsSpace(s[i])
  }

  /** Is position `i` inside `s` and a word character? */
  predicate WordAt(s: string, i: int) {
    0 <= i < |s| && IsWordChar(s[i])
  }

  /** The regular-expression assertion `\b` at position `k` (between `s[k-1]` and `s[k]`). */
  predicate WordBoundary(s: string, k: int) {
    WordAt(s, k - 1) != WordAt(s, k)
  }

  /** Does `kw` occur at position `i` of `s`, ignoring ASCII case? */
  predicate CiMatchAt(s: string, i: int, kw: string) {
    0 <= i && i + |kw| <= |s| && forall k :: 0 <= k < |kw| ==> Lower(s[i + k]) == Lower(kw[k])
  }

  /** Does `kw` occur at position `i` of `s` exactly? */
  predicate MatchAt(s: string, i: int, kw: string) {
    0 <= i && i + |kw| <= |s| && s[i..i + |kw|] == kw
  }

  /** The end of the run of whitespace that starts at `i` (a greedy `\s*`). */
  function SkipSpaces(s: string, i: nat): (j: nat)
    requires i <= |s|
    ensures i <= j <= |s|
    ensures forall k :: i <= k < j ==> IsSpace(s[k])
    ensures j == |s| || !IsSpace(s[j])
    decreases |s| - i
  {
    if i < |s| && IsSpace(s[i]) then SkipSpaces(s, i + 1) else i
  }

  /** The start of the run of whitespace that ends at `j`. */
  function TrimEnd(s: string, j: nat): (e: nat)
    requires j <= |s|
    ensures e <= j
    ensures forall k :: e <= k < j ==> IsSpace(s[k])
    ensures e == 0 || !IsSpace(s[e - 1])
  {
    if j > 0 && IsSpace(s[j - 1]) then TrimEnd(s, j - 1) else j
  }

  /** Python's `str.lstrip()`: drops exactly the leading whitespace. */
  function LStrip(s: string): (r: string)
    ensures |r| <= |s| && r == s[|s| - |r|..]
    ensures r == [] || !IsSpace(r[0])
    ensures forall k :: 0 <= k < |s| - |r| ==> IsSpace(s[k])
  {
    s[SkipSpaces(s, 0)..]
  }

  /** Python's `str.rstrip()`: drops exactly the trailing whitespace. */
  function RStrip(s: string): (r: string)
    ensures |r| <= |s| && r == s[..|r|]
    ensures r == [] || !IsSpace(r[|r| - 1])
    ensures forall k :: |r| <= k < |s| ==> IsSpace(s[k])
  {
    s[..TrimEnd(s, |s|)]
  }

  /** Python's `str.strip()`: drops exactly the leading and the trailing whitespace. */
  function Strip(s: string): (r: string)
    ensures |r| <= |s|
    ensures r == [] || (!IsSpace(r[0]) && !IsSpace(r[|r| - 1]))
    ensures SkipSpaces(s, 0) + |r| <= |s| && r == s[SkipSpaces(s, 0)..SkipSpaces(s, 0) + |r|]
    ensures forall k :: 0 <= k < SkipSpaces(s, 0) ==> IsSpace(s[k])
    ensures forall k :: SkipSpaces(s, 0) + |r| <= k < |s| ==> IsSpace(s[k])
  {
    RStrip(LStrip(s))
  }

  /** Text that does not end with whitespace is its own `rstrip()`. */
  lemma RStripOfNonSpaceEnd(s: string)
    requires s != [] && !IsSpace(s[|s| - 1])
    ensures RStrip(s) == s
  {
  }

  /** A run of whitespace followed by a letter ends exactly where `SkipSpaces` stops. */
  lemma SkipSpacesStopsAt(s: string, i: nat, j: nat)
    requires i <= j < |s|
    requires forall k :: i <= k < j ==> IsSpace(s[k])
    requires !IsSpace(s[j])
    ensures SkipSpaces(s, i) == j
    decreases j - i
  {
    if i < j {
      SkipSpacesStopsAt(s, i + 1, j);
    }
  }

  /** A case-insensitive match of a keyword starting with a letter starts on a non-space. */
  lemma CiMatchStartsWithNonSpace(s: string, i: int, kw: string)
    requires kw != [] && IsLetter(kw[0])
    requires CiMatchAt(s, i, kw)
    ensures !IsSpace(s[i])
  {
    assert Lower(s[i + 0]) == Lower(kw[0]);
  }

  /** Python's reading of a slice start: a negative start counts from the end of the string. */
  function PyStart(s: string, start: int): nat {
    if start >= 0 then start else if start + |s| < 0 then 0 else start + |s|
  }

  /** Python's `str.find(kw, start)`: the least position at or after `start`, or -1. */
  function PyFind(s: string, kw: string, start: int): (r: int)
    ensures r == -1 || (PyStart(s, start) <= r && MatchAt(s, r, kw))
    ensures r != -1 ==> forall k :: PyStart(s, start) <= k < r ==> !MatchAt(s, k, kw)
    ensures r == -1 ==> forall k :: PyStart(s, start) <= k ==> !MatchAt(s, k, kw)
  {
    FindFrom(s, kw, PyStart(s, start))
  }

  function FindFrom(s: string, kw: string, i: nat): (r: int)
    ensures r == -1 || (i <= r && MatchAt(s, r, kw))
    ensures r != -1 ==> forall k :: i <= k < r ==> !MatchAt(s, k, kw)
    ensures r == -1 ==> forall k :: i <= k ==> !MatchAt(s, k, kw)
    decreases |s| - i
  {
    if i + |kw| > |s| then -1
    else if s[i..i + |kw|] == kw then i
    else FindFrom(s, kw, i + 1)
  }

  /** Python's `str.rfind(kw)`: the greatest position of `kw` in `s`, or -1. */
  function PyRFind(s: string, kw: string): (r: int)
    ensures r == -1 || (0 <= r && MatchAt(s, r, kw))
    ensures forall k :: r < k ==> !MatchAt(s, k, kw)
  {
    if |kw| > |s| then -1 else FindBackFrom(s, kw, |s| - |kw|)
  }

  function FindBackFrom(s: string, kw: string, i: int): (r: int)
    requires -1 <= i && i + |kw| <= |s|
    ensures -1 <= r <= i
    ensures r == -1 || (0 <= r && MatchAt(s, r, kw))
    ensures forall k :: r < k <= i ==> !MatchAt(s, k, kw)
    decreases i + 1
  {
    if i < 0 then -1
    else if s[i..i + |kw|] == kw then i
    else FindBackFrom(s, kw, i - 1)
  }

  /** For an upper-case letter `K`, `c.upper() == K` exactly when `c` and `K` agree ignoring case. */
  lemma UpperIsCaseInsensitive(c: char, K: char)
    requires 'A' <= K <= 'Z'
    ensures Upper(c) == K <==> Lower(c) == Lower(K)
  {
  }

  /** Exact matching on the upper-cased text is case-insensitive matching on the text. */
  lemma UpperMatchIsCaseInsensitive(s: string, i: int, kw: string)
    requires IsAscii(s)
    requires forall k :: 0 <= k < |kw| ==> 'A' <= kw[k] <= 'Z'
    ensures MatchAt(UpperString(s), i, kw) <==> CiMatchAt(s, i, kw)
  {
    var u := UpperString(s);
    if 0 <= i && i + |kw| <= |s| {
      forall k | 0 <= k < |kw|
        ensures (u[i + k] == kw[k]) == (Lower(s[i + k]) == Lower(kw[k]))
      {
        UpperIsCaseInsensitive(s[i + k], kw[k]);
      }
      assert (u[i..i + |kw|] == kw) == (forall k :: 0 <= k < |kw| ==> u[i + k] == kw[k]);
    }
  }
}
