/** Searching in strings: maximal runs of a character class, and occurrences of a needle. */
module Strings {

  /** Length of the longest prefix of `s` made of characters of `cls`. */
  function RunLength(cls: set<char>, s: string): (k: nat)
    ensures k <= |s|
    ensures forall i | 0 <= i < k :: s[i] in cls
    ensures k < |s| ==> s[k] !in cls
  {
    if s != "" && s[0] in cls then 1 + RunLength(cls, s[1..]) else 0
  }

  lemma RunLengthIs(cls: set<char>, s: string, k: nat)
    requires k < |s| && s[k] !in cls && forall i | 0 <= i < k :: s[i] in cls
    ensures RunLength(cls, s) == k
  {
  }

  predicate OccursAt(needle: string, s: string, i: nat) {
    i + |needle| <= |s| && s[i..i + |needle|] == needle
  }

  /** `s.find(needle) != npos`. */
  predicate Contains(s: string, needle: string) {
    exists i | 0 <= i <= |s| :: OccursAt(needle, s, i)
  }
}
