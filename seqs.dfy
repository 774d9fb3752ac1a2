/** Order-preserving subsequences, the shape every filter in the plugins produces. */
module Seqs {

  /**
   * `sub` is `s` with some elements left out and the rest kept in their
   * original order. Stated from the end, like the filters that build their
   * results by appending.
   */
  ghost predicate IsSubsequence<T>(sub: seq<T>, s: seq<T>)
    decreases |s|
  {
    if sub == [] then true
    else if s == [] then false
    else if sub[|sub| - 1] == s[|s| - 1] && IsSubsequence(sub[..|sub| - 1], s[..|s| - 1]) then true
    else IsSubsequence(sub, s[..|s| - 1])
  }

  /** No element occurs twice. */
  predicate NoDuplicates<T(==)>(s: seq<T>) {
    forall i, j :: 0 <= i < j < |s| ==> s[i] != s[j]
  }

  /** Appending the same element to both sides keeps the relation. */
  lemma SubsequenceSnoc<T>(sub: seq<T>, s: seq<T>, x: T)
    requires IsSubsequence(sub, s)
    ensures IsSubsequence(sub + [x], s + [x])
    ensures IsSubsequence(sub, s + [x])
  {
    assert (sub + [x])[..|sub|] == sub;
    assert (s + [x])[..|s|] == s;
  }

  /** A subsequence is never longer than the sequence it is taken from. */
  lemma {:induction false} SubsequenceLength<T>(sub: seq<T>, s: seq<T>)
    requires IsSubsequence(sub, s)
    ensures |sub| <= |s|
    decreases |s|
  {
    if sub != [] {
      if sub[|sub| - 1] == s[|s| - 1] && IsSubsequence(sub[..|sub| - 1], s[..|s| - 1]) {
        SubsequenceLength(sub[..|sub| - 1], s[..|s| - 1]);
      } else {
        SubsequenceLength(sub, s[..|s| - 1]);
      }
    }
  }
}
