/** Index-addressed removal on sequences: `filter((_, j) => j !== i)` and
    `splice(i, 1)` for a non-negative index. */
module Seqs {

  /** `s` and `t` have the same length and agree everywhere except perhaps at `i`. */
  ghost predicate EqualExcept<T>(s: seq<T>, t: seq<T>, i: nat) {
    |s| == |t| && forall j :: 0 <= j < |s| && j != i ==> s[j] == t[j]
  }

  /** `s` without the element at `i`; an index past the end removes nothing. */
  function Without<T>(s: seq<T>, i: nat): (r: seq<T>)
    ensures i < |s| ==> |r| == |s| - 1
    ensures i < |s| ==> forall j :: 0 <= j < i ==> r[j] == s[j]
    ensures i < |s| ==> forall j :: i <= j < |r| ==> r[j] == s[j + 1]
    ensures i >= |s| ==> r == s
  {
    if i < |s| then s[..i] + s[i + 1..] else s
  }

  /** Exactly one occurrence, the one at `i`, is removed. */
  lemma WithoutMultiset<T>(s: seq<T>, i: nat)
    requires i < |s|
    ensures multiset(Without(s, i)) == multiset(s) - multiset{s[i]}
  {
    assert s == s[..i] + [s[i]] + s[i + 1..];
    assert Without(s, i) == s[..i] + s[i + 1..];
  }
}
