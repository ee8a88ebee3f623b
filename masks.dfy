/** The weight mask of an archive: one boolean per frequency channel and one
    per sub-integration, `true` while the slice is included. De-weighting
    (zero-weighting) a slice clears its entry; nothing in clean.py sets an
    entry back. */
module Masks {

  /** Number of excluded slices in a weight vector. */
  function ExcludedCount(w: seq<bool>): (n: nat)
    ensures n <= |w|
    ensures n == 0 <==> forall i :: 0 <= i < |w| ==> w[i]
  {
    if w == [] then 0
    else
      var k := |w| - 1;
      ExcludedCount(w[..k]) + (if w[k] then 0 else 1)
  }

  /** Excluding an included slice adds exactly one to the excluded count. */
  lemma {:induction false} ExcludeIncluded(w: seq<bool>, i: nat)
    requires i < |w| && w[i]
    ensures ExcludedCount(w[i := false]) == ExcludedCount(w) + 1
  {
    var k := |w| - 1;
    if i < k {
      ExcludeIncluded(w[..k], i);
      assert w[i := false][..k] == w[..k][i := false];
    } else {
      assert w[i := false][..k] == w[..k];
    }
  }

  /** The weights after de-weighting each listed index in turn: an index
      stays included iff it was included and is not listed. */
  function Sweep(w: seq<bool>, bad: seq<nat>): (r: seq<bool>)
    requires forall i :: i in bad ==> i < |w|
    ensures |r| == |w|
    ensures forall i: nat :: i < |w| ==> r[i] == (w[i] && i !in bad)
  {
    if bad == [] then w
    else
      var k := |bad| - 1;
      assert bad[k] in bad && forall i :: i in bad[..k] ==> i in bad;
      Sweep(w, bad[..k])[bad[k] := false]
  }

  class WeightMask {
    /** Per-channel weights, length nchan. */
    const chans: array<bool>
    /** Per-sub-integration weights, length nsub. */
    const subints: array<bool>

    /** The two weight vectors are distinct arrays, so updating one leaves
        the other alone. */
    ghost predicate Valid()
    {
      chans != subints
    }

    constructor (chanWeights: seq<bool>, subintWeights: seq<bool>)
      ensures Valid() && fresh(chans) && fresh(subints)
      ensures chans[..] == chanWeights && subints[..] == subintWeights
    {
      chans := new bool[|chanWeights|](i requires 0 <= i < |chanWeights| => chanWeights[i]);
      subints := new bool[|subintWeights|](i requires 0 <= i < |subintWeights| => subintWeights[i]);
    }

    /** Number of excluded channels and sub-integrations together. */
    function CountExcluded(): nat
      reads chans, subints
    {
      ExcludedCount(chans[..]) + ExcludedCount(subints[..])
    }

    /** `zero_weight_chan`: exclude one channel in place. Excluding an
        excluded channel changes nothing. */
    method ZeroWeightChan(ichan: nat)
      requires Valid() && ichan < chans.Length
      modifies chans
      ensures chans[..] == old(chans[..])[ichan := false]
      ensures CountExcluded() == old(CountExcluded()) + (if old(chans[ichan]) then 1 else 0)
    {
      if chans[ichan] {
        ExcludeIncluded(chans[..], ichan);
      } else {
        assert chans[..][ichan := false] == chans[..];
      }
      chans[ichan] := false;
    }

    /** `zero_weight_subint`: exclude one sub-integration in place.
        Excluding an excluded sub-integration changes nothing. */
    method ZeroWeightSubint(isub: nat)
      requires Valid() && isub < subints.Length
      modifies subints
      ensures subints[..] == old(subints[..])[isub := false]
      ensures CountExcluded() == old(CountExcluded()) + (if old(subints[isub]) then 1 else 0)
    {
      if subints[isub] {
        ExcludeIncluded(subints[..], isub);
      } else {
        assert subints[..][isub := false] == subints[..];
      }
      subints[isub] := false;
    }
  }
}
