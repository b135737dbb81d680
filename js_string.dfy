/** The string operations the pages use: `trim`, `toLowerCase`, `includes`
    and the `||` fallback between strings. */
module JsString {

  /** The whitespace `String.prototype.trim` removes, restricted to ASCII. */
  predicate IsSpace(c: char) {
    c == ' ' || c == '\t' || c == '\n' || c == '\r' || c == '\U{000B}' || c == '\U{000C}'
  }

  /** Every character of `s` at positions `lo` up to (not including) `hi`
      is whitespace. */
  predicate SpacesBetween(s: string, lo: int, hi: int)
    requires 0 <= lo && hi <= |s|
  {
    forall k | lo <= k < hi :: IsSpace(s[k])
  }

  /** `!s.trim()`: every character is whitespace, so nothing is left once
      trimmed (`BlankIffTrimEmpty`). */
  predicate IsBlank(s: string) {
    SpacesBetween(s, 0, |s|)
  }

  /** The first position at or after `i` that does not hold whitespace. */
  function SkipSpaces(s: string, i: nat): (n: nat)
    requires i <= |s|
    ensures i <= n <= |s| && SpacesBetween(s, i, n)
    ensures n < |s| ==> !IsSpace(s[n])
    decreases |s| - i
  {
    if i < |s| && IsSpace(s[i]) then SkipSpaces(s, i + 1) else i
  }

  /** The last position at or before `j` (and not before `lo`) that follows
      a non-whitespace character. */
  function SkipSpacesBack(s: string, lo: nat, j: nat): (m: nat)
    requires lo <= j <= |s|
    ensures lo <= m <= j && SpacesBetween(s, m, j)
    ensures lo < m ==> !IsSpace(s[m - 1])
  {
    if lo < j && IsSpace(s[j - 1]) then SkipSpacesBack(s, lo, j - 1) else j
  }

  /** `t` stands in `s` starting at position `k`. */
  predicate OccursAt(s: string, t: string, k: int) {
    0 <= k && k + |t| <= |s| && s[k..k + |t|] == t
  }

  /** Where `s.trim()` starts in `s`. */
  function TrimFrom(s: string): (a: nat)
    ensures a <= |s|
  {
    SkipSpaces(s, 0)
  }

  /** `s.trim()`: the slice of `s` left after dropping leading and trailing
      whitespace; everything dropped is whitespace, and what is kept neither
      starts nor ends with whitespace. */
  function Trim(s: string): (r: string)
    ensures OccursAt(s, r, TrimFrom(s))
    ensures SpacesBetween(s, 0, TrimFrom(s))
    ensures SpacesBetween(s, TrimFrom(s) + |r|, |s|)
    ensures r == [] || (!IsSpace(r[0]) && !IsSpace(r[|r| - 1]))
  {
    var a := SkipSpaces(s, 0);
    var b := SkipSpacesBack(s, a, |s|);
    assert a < b ==> s[a..b][0] == s[a] && s[a..b][b - a - 1] == s[b - 1];
    s[a..b]
  }

  /** `t` is what trimming `s` must leave: the piece of `s` starting at its
      first non-whitespace character, followed only by whitespace, and
      neither starting nor ending with whitespace. */
  predicate IsTrimOf(s: string, t: string) {
    OccursAt(s, t, TrimFrom(s))
    && SpacesBetween(s, TrimFrom(s) + |t|, |s|)
    && (t == [] || (!IsSpace(t[0]) && !IsSpace(t[|t| - 1])))
  }

  /** `IsTrimOf` leaves no choice: two strings that are both a trim of `s`
      are the same string. */
  lemma IsTrimOfUnique(s: string, t1: string, t2: string)
    requires IsTrimOf(s, t1) && IsTrimOf(s, t2)
    ensures t1 == t2
  {
  }

  /** A string is blank exactly when trimming it leaves the empty string. */
  lemma BlankIffTrimEmpty(s: string)
    ensures IsBlank(s) <==> Trim(s) == ""
  {
    var a := TrimFrom(s);
    if Trim(s) != "" {
      assert s[a] == Trim(s)[0];
    }
  }

  /** Trimming twice is trimming once. */
  lemma TrimIdempotent(s: string)
    ensures Trim(Trim(s)) == Trim(s)
  {
    var r := Trim(s);
    assert SkipSpaces(r, 0) == 0;
    assert SkipSpacesBack(r, 0, |r|) == |r|;
    assert r[0..|r|] == r;
  }

  /** ASCII `toLowerCase` of one character. */
  function LowerChar(c: char): char {
    if 'A' <= c <= 'Z' then (c as int - 'A' as int + 'a' as int) as char else c
  }

  /** `s.toLowerCase()`, ASCII letters only. */
  function Lower(s: string): (r: string)
    ensures |r| == |s|
    ensures forall i :: 0 <= i < |s| ==> r[i] == LowerChar(s[i])
  {
    seq(|s|, i requires 0 <= i < |s| => LowerChar(s[i]))
  }

  lemma LowerIdempotent(s: string)
    ensures Lower(Lower(s)) == Lower(s)
  {
  }

  /** `s.includes(t)`: `t` occurs as a contiguous piece of `s`. */
  predicate Includes(s: string, t: string) {
    exists k | 0 <= k <= |s| :: OccursAt(s, t, k)
  }

  /** Every string includes the empty string. */
  lemma IncludesEmpty(s: string)
    ensures Includes(s, "")
  {
    assert OccursAt(s, "", 0);
  }

  /** A string includes itself, and nothing longer than itself. */
  lemma IncludesLength(s: string, t: string)
    ensures Includes(s, s)
    ensures Includes(s, t) ==> |t| <= |s|
  {
    assert OccursAt(s, s, 0);
  }

  /** JavaScript's `a || b` on strings: `a` unless it is empty. */
  function Or(a: string, b: string): (r: string)
    ensures r == a || r == b
    ensures r == "" ==> a == "" && b == ""
    ensures a != "" ==> r == a
  {
    if a != "" then a else b
  }
}
