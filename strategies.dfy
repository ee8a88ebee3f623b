/** The cleaning strategies of clean.py that de-weight whole channels and
    sub-integrations: `deep_clean`, `clean_simple` and `clean_iterative`.

    The statistics themselves (profile removal, robust scaling) are computed
    by code this model does not contain. They enter as a `Scorer`: the final
    scaled statistic of every slice along one axis (for `deep_clean`, after
    clean.py has divided it by its robust standard deviation), as a
    function of the current channel and sub-integration weights. From that
    point on a statistic is only compared against a threshold or another
    statistic. */
module Strategies {

  import opened Scores
  import opened Masks

  // The default thresholds of `deep_clean`, `clean_simple` and `clean_iterative`.
  const DEEP_CLEAN_CHAN_THRESH: real := 5.0
  const DEEP_CLEAN_SUBINT_THRESH: real := 5.0
  const SIMPLE_TIME_THRESH: real := 1.0
  const SIMPLE_FREQ_THRESH: real := 3.0
  const ITERATIVE_THRESH: real := 2.0

  /** Scaled statistic per slice, given (channel weights, sub-integration weights). */
  type Scorer = (seq<bool>, seq<bool>) -> seq<real>

  /** The scorer yields one value per channel. */
  ghost predicate ScoresChans(f: Scorer)
  {
    forall c, s :: |f(c, s)| == |c|
  }

  /** The scorer yields one value per sub-integration. */
  ghost predicate ScoresSubints(f: Scorer)
  {
    forall c, s :: |f(c, s)| == |s|
  }

  /** The scaled mean and the scaled standard deviation along one axis. */
  datatype AxisScores = AxisScores(mean: Scorer, std: Scorer)
  {
    ghost predicate PerChannel()
    {
      ScoresChans(mean) && ScoresChans(std)
    }

    ghost predicate PerSubint()
    {
      ScoresSubints(mean) && ScoresSubints(std)
    }
  }

  /** The slices `deep_clean` de-weights on one axis:
      `np.unique(np.concatenate((argwhere(means >= t), argwhere(stds >= t))))`.
      A slice is listed, once, iff its scaled mean or its scaled standard
      deviation reaches the threshold. */
  function BadSlices(means: seq<real>, stds: seq<real>, thresh: real): (bad: seq<nat>)
    requires |means| == |stds|
    ensures StrictlyIncreasing(bad)
    ensures forall i :: i in bad ==> i < |means|
    ensures forall i: nat :: i < |means| ==> (i in bad <==> means[i] >= thresh || stds[i] >= thresh)
  {
    UniqueBelow(Flagged(means, thresh) + Flagged(stds, thresh), |means|)
  }

  /** De-weight the listed channels one after another. */
  method DeweightChans(m: WeightMask, bad: seq<nat>)
    requires m.Valid() && forall i :: i in bad ==> i < m.chans.Length
    modifies m.chans
    ensures m.chans[..] == Sweep(old(m.chans[..]), bad)
  {
    for k := 0 to |bad|
      invariant forall i :: i in bad[..k] ==> i in bad
      invariant m.chans[..] == Sweep(old(m.chans[..]), bad[..k])
    {
      assert bad[..k + 1][..k] == bad[..k] && bad[k] in bad;
      m.ZeroWeightChan(bad[k]);
    }
    assert bad[..|bad|] == bad;
  }

  /** De-weight the listed sub-integrations one after another. */
  method DeweightSubints(m: WeightMask, bad: seq<nat>)
    requires m.Valid() && forall i :: i in bad ==> i < m.subints.Length
    modifies m.subints
    ensures m.subints[..] == Sweep(old(m.subints[..]), bad)
  {
    for k := 0 to |bad|
      invariant forall i :: i in bad[..k] ==> i in bad
      invariant m.subints[..] == Sweep(old(m.subints[..]), bad[..k])
    {
      assert bad[..k + 1][..k] == bad[..k] && bad[k] in bad;
      m.ZeroWeightSubint(bad[k]);
    }
    assert bad[..|bad|] == bad;
  }

  /** `deep_clean` (its weight-mask part). Channels are scored on the initial
      mask and de-weighted when their scaled mean or scaled standard
      deviation reaches `chanthresh`; sub-integrations are then scored on
      the mask the channel stage left and de-weighted when either statistic
      reaches `subintthresh`. The returned lists are what it logs. */
  method DeepClean(m: WeightMask, chanScores: AxisScores, subintScores: AxisScores,
                   chanthresh: real, subintthresh: real)
    returns (badChans: seq<nat>, badSubints: seq<nat>)
    requires m.Valid() && chanScores.PerChannel() && subintScores.PerSubint()
    modifies m.chans, m.subints
    ensures var c0, s0 := old(m.chans[..]), old(m.subints[..]);
      && badChans == BadSlices(chanScores.mean(c0, s0), chanScores.std(c0, s0), chanthresh)
      && forall i :: 0 <= i < m.chans.Length ==>
           m.chans[i] == (c0[i] && chanScores.mean(c0, s0)[i] < chanthresh
                                && chanScores.std(c0, s0)[i] < chanthresh)
    ensures var c1, s0 := m.chans[..], old(m.subints[..]);
      && badSubints == BadSlices(subintScores.mean(c1, s0), subintScores.std(c1, s0), subintthresh)
      && forall i :: 0 <= i < m.subints.Length ==>
           m.subints[i] == (s0[i] && subintScores.mean(c1, s0)[i] < subintthresh
                                  && subintScores.std(c1, s0)[i] < subintthresh)
  {
    var c0, s0 := m.chans[..], m.subints[..];
    badChans := BadSlices(chanScores.mean(c0, s0), chanScores.std(c0, s0), chanthresh);
    DeweightChans(m, badChans);
    var c1 := m.chans[..];
    badSubints := BadSlices(subintScores.mean(c1, s0), subintScores.std(c1, s0), subintthresh);
    DeweightSubints(m, badSubints);
  }

  /** `clean_simple`. Both statistic vectors are taken before any change;
      sub-integrations whose statistic reaches `timethresh` are de-weighted,
      then channels whose statistic reaches `freqthresh`. */
  method CleanSimple(m: WeightMask, subintStats: seq<real>, chanStats: seq<real>,
                     timethresh: real, freqthresh: real)
    returns (badSubints: seq<nat>, badChans: seq<nat>)
    requires m.Valid() && |subintStats| == m.subints.Length && |chanStats| == m.chans.Length
    modifies m.chans, m.subints
    ensures badSubints == Flagged(subintStats, timethresh)
    ensures badChans == Flagged(chanStats, freqthresh)
    ensures forall i :: 0 <= i < |subintStats| ==>
              m.subints[i] == (old(m.subints[i]) && subintStats[i] < timethresh)
    ensures forall i :: 0 <= i < |chanStats| ==>
              m.chans[i] == (old(m.chans[i]) && chanStats[i] < freqthresh)
  {
    badSubints := Flagged(subintStats, timethresh);
    DeweightSubints(m, badSubints);
    badChans := Flagged(chanStats, freqthresh);
    DeweightChans(m, badChans);
  }

  /** With the default thresholds, a score equal to the threshold is
      de-weighted and one just below it is not. */
  lemma DefaultThresholdsInclusive()
    ensures var bad := BadSlices([5.0, 4.5], [0.0, 4.9], DEEP_CLEAN_CHAN_THRESH); 0 in bad && 1 !in bad
    ensures var bad := BadSlices([0.0, 4.5], [5.0, 4.9], DEEP_CLEAN_SUBINT_THRESH); 0 in bad && 1 !in bad
    ensures var bad := Flagged([1.0, 0.5], SIMPLE_TIME_THRESH); 0 in bad && 1 !in bad
    ensures var bad := Flagged([3.0, 2.5], SIMPLE_FREQ_THRESH); 0 in bad && 1 !in bad
  {
  }

  /** What one round of `clean_iterative` decides. */
  datatype Decision = Converged | DeweightSubint(isub: nat) | DeweightChan(ichan: nat)

  /** One round of `clean_iterative` on the current statistics. It stops iff
      every statistic on both axes is below the threshold. Otherwise it
      de-weights the first worst sub-integration when that one scores
      strictly above every channel, and the first worst channel otherwise
      (a tie goes to the channel). The slice chosen always reaches the
      threshold. */
  function Decide(subintStats: seq<real>, chanStats: seq<real>, threshold: real): (d: Decision)
    requires subintStats != [] && chanStats != []
    ensures d.Converged? <==>
              (forall i :: 0 <= i < |subintStats| ==> subintStats[i] < threshold) &&
              (forall j :: 0 <= j < |chanStats| ==> chanStats[j] < threshold)
    ensures d.DeweightSubint? ==>
              && d.isub == Argmax(subintStats)
              && subintStats[d.isub] >= threshold
              && forall j :: 0 <= j < |chanStats| ==> chanStats[j] < subintStats[d.isub]
    ensures d.DeweightChan? ==>
              && d.ichan == Argmax(chanStats)
              && chanStats[d.ichan] >= threshold
              && forall i :: 0 <= i < |subintStats| ==> subintStats[i] <= chanStats[d.ichan]
  {
    var worstSubint := Argmax(subintStats);
    var worstChan := Argmax(chanStats);
    if chanStats[worstChan] < threshold && subintStats[worstSubint] < threshold then
      Converged
    else if subintStats[worstSubint] > chanStats[worstChan] then
      DeweightSubint(worstSubint)
    else
      DeweightChan(worstChan)
  }

  /** One pass of the `clean_iterative` loop body: score both axes on the
      current mask, decide, and de-weight exactly the one slice decided on. */
  method CleanIterativeRound(m: WeightMask, subintStat: Scorer, chanStat: Scorer, threshold: real)
    returns (d: Decision)
    requires m.Valid() && m.chans.Length > 0 && m.subints.Length > 0
    requires ScoresSubints(subintStat) && ScoresChans(chanStat)
    modifies m.chans, m.subints
    ensures var c0, s0 := old(m.chans[..]), old(m.subints[..]);
      d == Decide(subintStat(c0, s0), chanStat(c0, s0), threshold)
    ensures d.Converged? ==> m.chans[..] == old(m.chans[..]) && m.subints[..] == old(m.subints[..])
    ensures d.DeweightSubint? ==>
              && d.isub < m.subints.Length
              && m.subints[..] == old(m.subints[..])[d.isub := false]
              && m.chans[..] == old(m.chans[..])
              && m.CountExcluded() == old(m.CountExcluded()) + (if old(m.subints[d.isub]) then 1 else 0)
    ensures d.DeweightChan? ==>
              && d.ichan < m.chans.Length
              && m.chans[..] == old(m.chans[..])[d.ichan := false]
              && m.subints[..] == old(m.subints[..])
              && m.CountExcluded() == old(m.CountExcluded()) + (if old(m.chans[d.ichan]) then 1 else 0)
  {
    var c0, s0 := m.chans[..], m.subints[..];
    d := Decide(subintStat(c0, s0), chanStat(c0, s0), threshold);
    match d
    case Converged =>
    case DeweightSubint(isub) =>
      m.ZeroWeightSubint(isub);
    case DeweightChan(ichan) =>
      m.ZeroWeightChan(ichan);
  }

  /** The scorer never puts an excluded channel at or above the threshold. */
  ghost predicate ExcludedChansBelow(f: Scorer, threshold: real)
  {
    forall c, s, i :: 0 <= i < |c| && i < |f(c, s)| && !c[i] ==> f(c, s)[i] < threshold
  }

  /** The scorer never puts an excluded sub-integration at or above the threshold. */
  ghost predicate ExcludedSubintsBelow(f: Scorer, threshold: real)
  {
    forall c, s, i :: 0 <= i < |s| && i < |f(c, s)| && !s[i] ==> f(c, s)[i] < threshold
  }

  /** `clean_iterative`: repeat rounds until one converges. Provided the
      scorers never rank an already excluded slice at or above the
      threshold, every round that does not converge excludes one more slice,
      so the loop ends after at most as many rounds as there were included
      slices, with every statistic below the threshold and no slice put
      back. */
  method CleanIterative(m: WeightMask, subintStat: Scorer, chanStat: Scorer, threshold: real)
    returns (rounds: nat)
    requires m.Valid() && m.chans.Length > 0 && m.subints.Length > 0
    requires ScoresSubints(subintStat) && ScoresChans(chanStat)
    requires ExcludedSubintsBelow(subintStat, threshold) && ExcludedChansBelow(chanStat, threshold)
    modifies m.chans, m.subints
    ensures Decide(subintStat(m.chans[..], m.subints[..]), chanStat(m.chans[..], m.subints[..]), threshold)
              == Converged
    ensures m.CountExcluded() == old(m.CountExcluded()) + rounds
    ensures rounds <= m.chans.Length + m.subints.Length - old(m.CountExcluded())
    ensures forall i :: 0 <= i < m.chans.Length && m.chans[i] ==> old(m.chans[i])
    ensures forall i :: 0 <= i < m.subints.Length && m.subints[i] ==> old(m.subints[i])
  {
    rounds := 0;
    while true
      invariant m.CountExcluded() == old(m.CountExcluded()) + rounds
      invariant forall i :: 0 <= i < m.chans.Length && m.chans[i] ==> old(m.chans[i])
      invariant forall i :: 0 <= i < m.subints.Length && m.subints[i] ==> old(m.subints[i])
      decreases m.chans.Length + m.subints.Length - m.CountExcluded()
    {
      ghost var c0, s0 := m.chans[..], m.subints[..];
      var d := CleanIterativeRound(m, subintStat, chanStat, threshold);
      if d.Converged? {
        break;
      }
      if d.DeweightSubint? {
        assert subintStat(c0, s0)[d.isub] >= threshold;
        assert s0[d.isub];
      } else {
        assert chanStat(c0, s0)[d.ichan] >= threshold;
        assert c0[d.ichan];
      }
      rounds := rounds + 1;
    }
  }

  /** With the default `clean_iterative` threshold: a worst sub-integration
      and a worst channel that tie at the threshold de-weight the channel;
      a sub-integration is chosen only when it scores strictly higher; and
      everything below the threshold stops the loop. */
  lemma DefaultIterativeRounds()
    ensures Decide([2.0], [2.0], ITERATIVE_THRESH) == DeweightChan(0)
    ensures Decide([0.5, 2.5], [2.0], ITERATIVE_THRESH) == DeweightSubint(1)
    ensures Decide([1.5], [1.9], ITERATIVE_THRESH) == Converged
  {
  }
}
