/**
 Python's `needle in haystack` test on strings, which the calculator uses to
 turn the text of a radio button or a select box into a choice.
 */
module Substring {

  /** `pat` occurs in `s` starting at index `i`. */
  predicate OccursAt(s: string, pat: string, i: int)
  {
    0 <= i && i + |pat| <= |s| && s[i..i + |pat|] == pat
  }

  /** `pat in s`: some index of `s` starts an occurrence of `pat`. */
  function Contains(s: string, pat: string): (b: bool)
    ensures b <==> exists i :: OccursAt(s, pat, i)
    decreases |s|
  {
    if |s| < |pat| then
      assert forall i :: !OccursAt(s, pat, i);
      false
    else if s[..|pat|] == pat then
      assert OccursAt(s, pat, 0);
      true
    else
      ShiftOccurrence(s, pat);
      Contains(s[1..], pat)
  }

  /** Past the first index, occurrences in `s` are the occurrences in `s[1..]`, shifted by one. */
  lemma ShiftOccurrence(s: string, pat: string)
    requires |s| > 0
    ensures forall j :: OccursAt(s[1..], pat, j) ==> OccursAt(s, pat, j + 1)
    ensures forall i :: i != 0 && OccursAt(s, pat, i) ==> OccursAt(s[1..], pat, i - 1)
  {
  }

  /** A string that lacks the first character of `pat` cannot contain `pat`. */
  lemma MissingFirstChar(s: string, pat: string)
    requires |pat| > 0 && pat[0] !in s
    ensures !Contains(s, pat)
  {
  }
}
