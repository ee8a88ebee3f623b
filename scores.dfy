/** Index selection over per-slice score vectors: the numpy `argwhere`,
    `unique` and `argmax` steps that the cleaning strategies of clean.py use
    to turn scaled statistics into channel or sub-integration indices. */
module Scores {

  /** Each index appears once, in ascending order. */
  predicate StrictlyIncreasing(s: seq<nat>)
  {
    forall i, j :: 0 <= i < j < |s| ==> s[i] < s[j]
  }

  /** Appending an index above every listed one keeps the list ascending. */
  lemma AppendAbove(s: seq<nat>, x: nat)
    requires StrictlyIncreasing(s)
    requires forall y :: y in s ==> y < x
    ensures StrictlyIncreasing(s + [x])
  {
    forall i, j | 0 <= i < j < |s + [x]|
      ensures (s + [x])[i] < (s + [x])[j]
    {
      assert (s + [x])[i] == s[i] && s[i] in s;
    }
  }

  /** `np.argwhere(scores >= thresh)`: the indices whose score reaches the
      threshold, in ascending order. A score equal to the threshold is
      selected. */
  function Flagged(scores: seq<real>, thresh: real): (r: seq<nat>)
    ensures StrictlyIncreasing(r)
    ensures forall i :: i in r ==> i < |scores|
    ensures forall i: nat :: i < |scores| ==> (i in r <==> scores[i] >= thresh)
  {
    if scores == [] then []
    else
      var n := |scores| - 1;
      var front := Flagged(scores[..n], thresh);
      if scores[n] >= thresh then AppendAbove(front, n); front + [n] else front
  }

  /** `np.unique` of a list of indices, restricted to those below `n`: each
      index of `s` that is below `n` exactly once, in ascending order. */
  function UniqueBelow(s: seq<nat>, n: nat): (r: seq<nat>)
    ensures StrictlyIncreasing(r)
    ensures forall x :: x in r ==> x < n
    ensures forall x: nat :: x in r <==> x in s && x < n
  {
    if n == 0 then []
    else
      var front := UniqueBelow(s, n - 1);
      if n - 1 in s then AppendAbove(front, n - 1); front + [n - 1] else front
  }

  /** `np.argmax`: the index of the first largest score. */
  function Argmax(scores: seq<real>): (k: nat)
    requires scores != []
    ensures k < |scores|
    ensures forall i :: 0 <= i < |scores| ==> scores[i] <= scores[k]
    ensures forall i :: 0 <= i < k ==> scores[i] < scores[k]
  {
    if |scores| == 1 then 0
    else
      var n := |scores| - 1;
      var k := Argmax(scores[..n]);
      if scores[n] > scores[k] then n else k
  }
}
