/** The pieces of java.lang.String that the preflight scan relies on:
    trim(), indexOf(String) and startsWith(String). Java strings are
    sequences of UTF-16 code units; here a string is a seq<char>. */
module JavaText {

  /** String.trim removes every leading and trailing character whose code
      is at most U+0020 (space and all control characters). */
  predicate IsTrimmed(c: char) {
    c <= ' '
  }

  /** How many characters trim strips from the front of s. */
  function LeadingCount(s: string): (n: nat)
    ensures n <= |s|
  {
    if s == [] || !IsTrimmed(s[0]) then 0 else 1 + LeadingCount(s[1..])
  }

  /** The leading run is made of trimmed characters only and stops at the
      first kept character. */
  lemma {:induction false} LeadingCountSpec(s: string)
    ensures forall i :: 0 <= i < LeadingCount(s) ==> IsTrimmed(s[i])
    ensures LeadingCount(s) < |s| ==> !IsTrimmed(s[LeadingCount(s)])
  {
    if s != [] && IsTrimmed(s[0]) {
      LeadingCountSpec(s[1..]);
    }
  }

  /** Where the text kept by trim ends (exclusive), once trailing
      characters are stripped. */
  function TrailingEnd(s: string): (n: nat)
    ensures n <= |s|
    decreases |s|
  {
    if s == [] || !IsTrimmed(s[|s| - 1]) then |s| else TrailingEnd(s[..|s| - 1])
  }

  /** Everything from the end of the kept text on is trimmed, and the kept
      text ends with a kept character. */
  lemma {:induction false} TrailingEndSpec(s: string)
    ensures forall i :: TrailingEnd(s) <= i < |s| ==> IsTrimmed(s[i])
    ensures TrailingEnd(s) > 0 ==> !IsTrimmed(s[TrailingEnd(s) - 1])
    decreases |s|
  {
    if s != [] && IsTrimmed(s[|s| - 1]) {
      TrailingEndSpec(s[..|s| - 1]);
    }
  }

  /** String.trim: strip the leading run, then the trailing run. */
  function Trim(s: string): string {
    var start, end := LeadingCount(s), TrailingEnd(s);
    if start < end then s[start..end] else []
  }

  /** What trim keeps: the slice of s right after the leading run of
      trimmed characters that neither starts nor ends with a trimmed
      character, followed in s only by trimmed characters; empty exactly
      when s holds only trimmed characters. */
  lemma {:induction false} TrimSpec(s: string)
    ensures Trim(s) == [] <==> forall i :: 0 <= i < |s| ==> IsTrimmed(s[i])
    ensures Trim(s) != [] ==> !IsTrimmed(Trim(s)[0]) && !IsTrimmed(Trim(s)[|Trim(s)| - 1])
    ensures LeadingCount(s) + |Trim(s)| <= |s|
    ensures Trim(s) == s[LeadingCount(s)..LeadingCount(s) + |Trim(s)|]
    ensures forall i :: LeadingCount(s) + |Trim(s)| <= i < |s| ==> IsTrimmed(s[i])
  {
    LeadingCountSpec(s);
    TrailingEndSpec(s);
  }

  /** t occurs in s starting at index i. */
  predicate OccursAt(s: string, t: string, i: int) {
    0 <= i && i + |t| <= |s| && s[i..i + |t|] == t
  }

  /** t is a substring of s. */
  ghost predicate Contains(s: string, t: string) {
    exists i :: OccursAt(s, t, i)
  }

  /** String.startsWith(prefix). */
  predicate StartsWith(s: string, prefix: string) {
    |prefix| <= |s| && s[..|prefix|] == prefix
  }

  /** The search loop of String.indexOf(t), started at index from. */
  function IndexOfFrom(s: string, t: string, from: nat): (r: int)
    ensures r == -1 || (from <= r && OccursAt(s, t, r))
    ensures forall j :: from <= j && (r == -1 || j < r) ==> !OccursAt(s, t, j)
    decreases |s| - from
  {
    if from + |t| > |s| then -1
    else if s[from..from + |t|] == t then from
    else IndexOfFrom(s, t, from + 1)
  }

  /** String.indexOf(t): the first index at which t occurs in s, or -1. */
  function IndexOf(s: string, t: string): (r: int)
    ensures r == -1 <==> !Contains(s, t)
    ensures r != -1 ==> OccursAt(s, t, r) && forall j :: 0 <= j < r ==> !OccursAt(s, t, j)
  {
    IndexOfFrom(s, t, 0)
  }

  /** A text that starts with a kept character, placed right after a run of
      trimmed characters, is first found right after that run. */
  lemma {:induction false} FirstOccurrenceAfterRun(s: string, t: string, n: nat)
    requires t != [] && !IsTrimmed(t[0]) && OccursAt(s, t, n)
    requires forall i :: 0 <= i < n ==> IsTrimmed(s[i])
    ensures IndexOf(s, t) == n
  {
    var r := IndexOf(s, t);
    assert 0 <= r <= n;
    assert s[r..r + |t|][0] == s[r];
  }

  /** When trim leaves something, the first place where the trimmed text
      occurs in the original is exactly after the stripped leading
      characters, and that place is a valid index of the original. */
  lemma {:induction false} TrimmedTextIndex(s: string)
    requires Trim(s) != []
    ensures IndexOf(s, Trim(s)) == LeadingCount(s)
    ensures LeadingCount(s) < |s|
  {
    TrimSpec(s);
    LeadingCountSpec(s);
    FirstOccurrenceAfterRun(s, Trim(s), LeadingCount(s));
  }
}
