/**
 * LEAN's `IndexOfInvariant(value, ignoreCase: true)` string extension: the first position at which
 * `value` occurs in a string, compared case-insensitively, or -1 when it does not occur.
 */
module StringExtensions {

  /** Case folding of the invariant culture, restricted to the ASCII letters. */
  function ToLowerInvariant(c: char): char
  {
    if 'A' <= c <= 'Z' then (c as int + ('a' as int - 'A' as int)) as char else c
  }

  /** `value` occurs in `source` at position `i`, ignoring case. */
  predicate MatchesAt(source: string, value: string, i: int)
  {
    0 <= i && i + |value| <= |source| &&
    forall k :: 0 <= k < |value| ==> ToLowerInvariant(source[i + k]) == ToLowerInvariant(value[k])
  }

  /** The first position at or after `start` where `value` occurs, or -1. */
  function IndexFrom(source: string, value: string, start: nat): (r: int)
    decreases |source| - start
    ensures r == -1 || (start <= r && MatchesAt(source, value, r))
    ensures r == -1 ==> forall i :: start <= i ==> !MatchesAt(source, value, i)
    ensures r != -1 ==> forall i :: start <= i < r ==> !MatchesAt(source, value, i)
  {
    if start + |value| > |source| then -1
    else if MatchesAt(source, value, start) then start
    else IndexFrom(source, value, start + 1)
  }

  /** `source.IndexOfInvariant(value, true)`. */
  function IndexOfIgnoreCase(source: string, value: string): (r: int)
    ensures r == -1 <==> forall i :: !MatchesAt(source, value, i)
    ensures r != -1 ==> MatchesAt(source, value, r) && forall i :: 0 <= i < r ==> !MatchesAt(source, value, i)
  {
    IndexFrom(source, value, 0)
  }
}
