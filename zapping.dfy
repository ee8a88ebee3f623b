/** Coarse de-weighting in clean.py: `trim_edge_channels`,
    `remove_bad_subints` and `remove_bad_channels` build the arguments of
    one call to the external `paz -m` tool, and make the call only when
    there is something to de-weight. The arguments are modelled as
    `Zaplet` values; the command-line text and running the tool are not
    modelled. */
module Zapping {

  import opened Options
  import opened Settings

  /** One de-weighting request. Intervals are inclusive at both ends. */
  datatype Zaplet =
    | SubintList(subints: seq<int>)       // -w '<i> <i> ...'
    | SubintInterval(lo: int, hi: int)    // -W '<lo> <hi>'
    | ChanList(chans: seq<int>)           // -z '<i> <i> ...'
    | ChanInterval(lo: int, hi: int)      // -Z '<lo> <hi>'
    | FreqList(freqs: seq<real>)          // -f '<f> <f> ...'
    | FreqInterval(flo: real, fhi: real)  // -F '<lo> <hi>'

  /** `paz -m <zaplets> <file>`: de-weight in place. */
  datatype PazCall = PazCall(zaplets: seq<Zaplet>, file: string)

  /** Which frequencies each channel holds: `band(ichan, lo, hi)` says that
      channel `ichan` holds some frequency in the inclusive range
      `[lo, hi]`. It stands for the archive's channel frequencies, which
      decide the channels a frequency zaplet de-weights; a single
      frequency `f` is the range `[f, f]`. */
  type Band = (int, real, real) -> bool

  /** Whether channel `ichan` holds one of the listed frequencies. */
  predicate HoldsSomeFreq(band: Band, ichan: int, freqs: seq<real>)
  {
    exists f :: f in freqs && band(ichan, f, f)
  }

  /** Whether channel `ichan` holds a frequency in one of the inclusive
      frequency ranges. */
  predicate MeetsSomeFreqInterval(band: Band, ichan: int, iv: seq<(real, real)>)
  {
    exists k :: 0 <= k < |iv| && band(ichan, iv[k].0, iv[k].1)
  }

  /** Whether a zaplet de-weights channel `ichan`: by index for `-z`/`-Z`,
      by the frequencies the channel holds for `-f`/`-F`. */
  predicate ZapletZapsChan(band: Band, z: Zaplet, ichan: int)
  {
    match z
    case ChanList(chans) => ichan in chans
    case ChanInterval(lo, hi) => lo <= ichan <= hi
    case FreqList(freqs) => HoldsSomeFreq(band, ichan, freqs)
    case FreqInterval(flo, fhi) => band(ichan, flo, fhi)
    case _ => false
  }

  /** Whether a zaplet de-weights a sub-integration by its index. */
  predicate ZapsSubintIndex(z: Zaplet, isub: int)
  {
    match z
    case SubintList(subints) => isub in subints
    case SubintInterval(lo, hi) => lo <= isub <= hi
    case _ => false
  }

  /** Whether some zaplet of the list de-weights channel `ichan`. */
  predicate ZapsChan(band: Band, zs: seq<Zaplet>, ichan: int)
  {
    exists j :: 0 <= j < |zs| && ZapletZapsChan(band, zs[j], ichan)
  }

  /** Whether some zaplet of the list de-weights sub-integration `isub`. */
  predicate ZapsSubint(zs: seq<Zaplet>, isub: int)
  {
    exists j :: 0 <= j < |zs| && ZapsSubintIndex(zs[j], isub)
  }

  /** Whether some inclusive interval of the list holds `i`. */
  predicate InSomeInterval(iv: seq<(int, int)>, i: int)
  {
    exists k :: 0 <= k < |iv| && iv[k].0 <= i <= iv[k].1
  }

  // ---------------------------------------------------------------- trim

  /** `trim_edge_channels`. With a trim count `n` (the argument, else the
      configured one) of at most zero nothing is called; otherwise two
      inclusive channel intervals of `n` channels each are de-weighted, one
      starting at the first channel and one ending at the last. */
  function TrimEdgeChannels(file: string, nchan: int, nchanToTrim: Option<int>, cfg: Config): (call: Option<PazCall>)
    ensures var n := nchanToTrim.GetOr(cfg.nchanToTrim);
      && (call.None? <==> n <= 0)
      && (call.Some? ==>
            && call.value.file == file
            && |call.value.zaplets| == 2
            && (forall z :: z in call.value.zaplets ==> z.ChanInterval? && z.hi - z.lo + 1 == n)
            && call.value.zaplets[0].lo == 0
            && call.value.zaplets[1].hi == nchan - 1)
  {
    var n := nchanToTrim.GetOr(cfg.nchanToTrim);
    if n > 0 then
      Some(PazCall([ChanInterval(0, n - 1), ChanInterval(nchan - n, nchan - 1)], file))
    else
      None
  }

  /** A channel of the band is de-weighted by the trim iff it is among the
      first `n` or the last `n` channels. */
  lemma TrimZapsEdges(band: Band, file: string, nchan: int, nchanToTrim: Option<int>, cfg: Config, ichan: int)
    requires 0 <= ichan < nchan
    ensures var call, n := TrimEdgeChannels(file, nchan, nchanToTrim, cfg), nchanToTrim.GetOr(cfg.nchanToTrim);
      (call.Some? && ZapsChan(band, call.value.zaplets, ichan)) <==> (n > 0 && (ichan < n || nchan - n <= ichan))
  {
    var call, n := TrimEdgeChannels(file, nchan, nchanToTrim, cfg), nchanToTrim.GetOr(cfg.nchanToTrim);
    if n > 0 {
      var zs := call.value.zaplets;
      if ichan < n {
        assert ZapletZapsChan(band, zs[0], ichan);
      } else if nchan - n <= ichan {
        assert ZapletZapsChan(band, zs[1], ichan);
      }
    }
  }

  // ------------------------------------------------------ remove_bad_subints

  /** One zaplet per interval, in input order. */
  function Each<T>(intervals: seq<T>, zaplet: T -> Zaplet): (zs: seq<Zaplet>)
    ensures |zs| == |intervals|
    ensures forall k {:trigger zs[k]} :: 0 <= k < |intervals| ==> zs[k] == zaplet(intervals[k])
  {
    seq(|intervals|, k requires 0 <= k < |intervals| => zaplet(intervals[k]))
  }

  /** Python's `list.extend` with one zaplet per interval. */
  method Extend<T>(zaplets: seq<Zaplet>, intervals: seq<T>, zaplet: T -> Zaplet) returns (r: seq<Zaplet>)
    ensures r == zaplets + Each(intervals, zaplet)
  {
    r := zaplets;
    for k := 0 to |intervals|
      invariant r == zaplets + Each(intervals[..k], zaplet)
    {
      assert Each(intervals[..k + 1], zaplet) == Each(intervals[..k], zaplet) + [zaplet(intervals[k])];
      r := r + [zaplet(intervals[k])];
    }
    assert intervals[..|intervals|] == intervals;
  }

  function SubintIntervalOf(lohi: (int, int)): Zaplet { SubintInterval(lohi.0, lohi.1) }
  function ChanIntervalOf(lohi: (int, int)): Zaplet { ChanInterval(lohi.0, lohi.1) }
  function FreqIntervalOf(lohi: (real, real)): Zaplet { FreqInterval(lohi.0, lohi.1) }

  /** The zaplets `remove_bad_subints` collects: the explicit list, when it
      is not empty, then one per interval. */
  function SubintZaplets(badsubints: seq<int>, intervals: seq<(int, int)>): seq<Zaplet>
  {
    (if badsubints == [] then [] else [SubintList(badsubints)]) + Each(intervals, SubintIntervalOf)
  }

  /** Layout: the list entry comes first when the list is not empty, then
      the `k`-th interval's zaplet, in input order. */
  lemma SubintZapletsAt(badsubints: seq<int>, intervals: seq<(int, int)>, k: nat)
    ensures var zs, at := SubintZaplets(badsubints, intervals), if badsubints == [] then 0 else 1;
      && |zs| == at + |intervals|
      && (badsubints != [] ==> zs[0] == SubintList(badsubints))
      && (k < |intervals| ==> zs[at + k] == SubintInterval(intervals[k].0, intervals[k].1))
  {
    var head := if badsubints == [] then [] else [SubintList(badsubints)];
    var tail := Each(intervals, SubintIntervalOf);
    if k < |intervals| {
      assert (head + tail)[|head| + k] == tail[k];
    }
  }

  /** A sub-integration is de-weighted iff it is listed or lies in one of
      the intervals. */
  lemma SubintZapletsCover(badsubints: seq<int>, intervals: seq<(int, int)>, isub: int)
    ensures ZapsSubint(SubintZaplets(badsubints, intervals), isub) <==>
              isub in badsubints || InSomeInterval(intervals, isub)
  {
    var zs := SubintZaplets(badsubints, intervals);
    var at := if badsubints == [] then 0 else 1;
    if isub in badsubints {
      SubintZapletsAt(badsubints, intervals, 0);
      assert ZapsSubintIndex(zs[0], isub);
    } else if InSomeInterval(intervals, isub) {
      var k :| 0 <= k < |intervals| && intervals[k].0 <= isub <= intervals[k].1;
      SubintZapletsAt(badsubints, intervals, k);
      assert ZapsSubintIndex(zs[at + k], isub);
    }
    if ZapsSubint(zs, isub) {
      var j :| 0 <= j < |zs| && ZapsSubintIndex(zs[j], isub);
      if j < at {
        SubintZapletsAt(badsubints, intervals, 0);
      } else {
        SubintZapletsAt(badsubints, intervals, j - at);
        assert intervals[j - at].0 <= isub <= intervals[j - at].1;
      }
    }
  }

  /** `remove_bad_subints`: collect the zaplets for the given (else the
      configured) list and intervals; call the tool iff there are any. */
  method RemoveBadSubints(file: string, badsubints: Option<seq<int>>,
                          badsubintIntervals: Option<seq<(int, int)>>, cfg: Config)
    returns (call: Option<PazCall>)
    ensures var list, iv := badsubints.GetOr(cfg.badsubints), badsubintIntervals.GetOr(cfg.badsubintIntervals);
      && (call.None? <==> list == [] && iv == [])
      && (call.Some? ==> call.value == PazCall(SubintZaplets(list, iv), file))
  {
    var list := badsubints.GetOr(cfg.badsubints);
    var iv := badsubintIntervals.GetOr(cfg.badsubintIntervals);
    var zaplets: seq<Zaplet> := [];
    if list != [] {
      zaplets := zaplets + [SubintList(list)];
    }
    zaplets := Extend(zaplets, iv, SubintIntervalOf);
    if zaplets != [] {
      call := Some(PazCall(zaplets, file));
    } else {
      call := None;
    }
  }

  // ----------------------------------------------------- remove_bad_channels

  /** The zaplets `remove_bad_channels` collects: the channel list (when not
      empty), one per channel interval, the frequency list (when not empty),
      one per frequency interval. */
  function ChanZaplets(badchans: seq<int>, chanIntervals: seq<(int, int)>,
                       badfreqs: seq<real>, freqIntervals: seq<(real, real)>): seq<Zaplet>
  {
    (if badchans == [] then [] else [ChanList(badchans)])
    + Each(chanIntervals, ChanIntervalOf)
    + (if badfreqs == [] then [] else [FreqList(badfreqs)])
    + Each(freqIntervals, FreqIntervalOf)
  }

  /** Layout: channel list (when not empty), channel intervals, frequency
      list (when not empty), frequency intervals; the `k`-th interval of
      each kind sits at offset `k` of its group. */
  lemma ChanZapletsAt(badchans: seq<int>, chanIntervals: seq<(int, int)>,
                      badfreqs: seq<real>, freqIntervals: seq<(real, real)>, k: nat)
    ensures var zs := ChanZaplets(badchans, chanIntervals, badfreqs, freqIntervals);
      var a := if badchans == [] then 0 else 1;
      var b := a + |chanIntervals|;
      var c := b + (if badfreqs == [] then 0 else 1);
      && |zs| == c + |freqIntervals|
      && (badchans != [] ==> zs[0] == ChanList(badchans))
      && (k < |chanIntervals| ==> zs[a + k] == ChanInterval(chanIntervals[k].0, chanIntervals[k].1))
      && (badfreqs != [] ==> zs[b] == FreqList(badfreqs))
      && (k < |freqIntervals| ==> zs[c + k] == FreqInterval(freqIntervals[k].0, freqIntervals[k].1))
  {
    var chanList := if badchans == [] then [] else [ChanList(badchans)];
    var chanIv := Each(chanIntervals, ChanIntervalOf);
    var freqList := if badfreqs == [] then [] else [FreqList(badfreqs)];
    var freqIv := Each(freqIntervals, FreqIntervalOf);
    var chanPart := chanList + chanIv;
    var front := chanPart + freqList;
    assert ChanZaplets(badchans, chanIntervals, badfreqs, freqIntervals) == front + freqIv;
    if k < |chanIntervals| {
      assert chanPart[|chanList| + k] == chanIv[k];
      assert (front + freqIv)[|chanList| + k] == chanPart[|chanList| + k];
    }
    if badfreqs != [] {
      assert (front + freqIv)[|chanPart|] == front[|chanPart|] == freqList[0];
    }
    if k < |freqIntervals| {
      assert (front + freqIv)[|front| + k] == freqIv[k];
    }
  }

  /** Every listed channel, every channel in a channel interval, every
      channel holding a listed frequency and every channel holding a
      frequency in a frequency interval is de-weighted. */
  lemma ChanZapletsZapListed(band: Band, badchans: seq<int>, chanIntervals: seq<(int, int)>,
                             badfreqs: seq<real>, freqIntervals: seq<(real, real)>, ichan: int)
    requires || ichan in badchans || InSomeInterval(chanIntervals, ichan)
             || HoldsSomeFreq(band, ichan, badfreqs) || MeetsSomeFreqInterval(band, ichan, freqIntervals)
    ensures ZapsChan(band, ChanZaplets(badchans, chanIntervals, badfreqs, freqIntervals), ichan)
  {
    var zs := ChanZaplets(badchans, chanIntervals, badfreqs, freqIntervals);
    var a := if badchans == [] then 0 else 1;
    var b := a + |chanIntervals|;
    var c := b + (if badfreqs == [] then 0 else 1);
    if ichan in badchans {
      ChanZapletsAt(badchans, chanIntervals, badfreqs, freqIntervals, 0);
      assert ZapletZapsChan(band, zs[0], ichan);
    } else if InSomeInterval(chanIntervals, ichan) {
      var k :| 0 <= k < |chanIntervals| && chanIntervals[k].0 <= ichan <= chanIntervals[k].1;
      ChanZapletsAt(badchans, chanIntervals, badfreqs, freqIntervals, k);
      assert ZapletZapsChan(band, zs[a + k], ichan);
    } else if HoldsSomeFreq(band, ichan, badfreqs) {
      ChanZapletsAt(badchans, chanIntervals, badfreqs, freqIntervals, 0);
      assert ZapletZapsChan(band, zs[b], ichan);
    } else {
      var k :| 0 <= k < |freqIntervals| && band(ichan, freqIntervals[k].0, freqIntervals[k].1);
      ChanZapletsAt(badchans, chanIntervals, badfreqs, freqIntervals, k);
      assert ZapletZapsChan(band, zs[c + k], ichan);
    }
  }

  /** No other channel is de-weighted. */
  lemma ChanZapletsZapOnlyListed(band: Band, badchans: seq<int>, chanIntervals: seq<(int, int)>,
                                 badfreqs: seq<real>, freqIntervals: seq<(real, real)>, ichan: int)
    requires ZapsChan(band, ChanZaplets(badchans, chanIntervals, badfreqs, freqIntervals), ichan)
    ensures || ichan in badchans || InSomeInterval(chanIntervals, ichan)
            || HoldsSomeFreq(band, ichan, badfreqs) || MeetsSomeFreqInterval(band, ichan, freqIntervals)
  {
    var zs := ChanZaplets(badchans, chanIntervals, badfreqs, freqIntervals);
    var a := if badchans == [] then 0 else 1;
    var b := a + |chanIntervals|;
    var c := b + (if badfreqs == [] then 0 else 1);
    var j :| 0 <= j < |zs| && ZapletZapsChan(band, zs[j], ichan);
    if j < a {
      ChanZapletsAt(badchans, chanIntervals, badfreqs, freqIntervals, 0);
    } else if j < b {
      ChanZapletsAt(badchans, chanIntervals, badfreqs, freqIntervals, j - a);
      assert chanIntervals[j - a].0 <= ichan <= chanIntervals[j - a].1;
    } else if j < c {
      ChanZapletsAt(badchans, chanIntervals, badfreqs, freqIntervals, 0);
    } else {
      ChanZapletsAt(badchans, chanIntervals, badfreqs, freqIntervals, j - c);
      assert band(ichan, freqIntervals[j - c].0, freqIntervals[j - c].1);
    }
  }

  /** A channel is de-weighted iff it is listed, lies in one of the channel
      intervals, holds a listed frequency or holds a frequency in one of
      the frequency intervals. */
  lemma ChanZapletsCover(band: Band, badchans: seq<int>, chanIntervals: seq<(int, int)>,
                         badfreqs: seq<real>, freqIntervals: seq<(real, real)>, ichan: int)
    ensures ZapsChan(band, ChanZaplets(badchans, chanIntervals, badfreqs, freqIntervals), ichan) <==>
              || ichan in badchans || InSomeInterval(chanIntervals, ichan)
              || HoldsSomeFreq(band, ichan, badfreqs) || MeetsSomeFreqInterval(band, ichan, freqIntervals)
  {
    if || ichan in badchans || InSomeInterval(chanIntervals, ichan)
       || HoldsSomeFreq(band, ichan, badfreqs) || MeetsSomeFreqInterval(band, ichan, freqIntervals) {
      ChanZapletsZapListed(band, badchans, chanIntervals, badfreqs, freqIntervals, ichan);
    }
    if ZapsChan(band, ChanZaplets(badchans, chanIntervals, badfreqs, freqIntervals), ichan) {
      ChanZapletsZapOnlyListed(band, badchans, chanIntervals, badfreqs, freqIntervals, ichan);
    }
  }

  /** `remove_bad_channels`: collect the zaplets for the given (else the
      configured) channel list, channel intervals, frequency list and
      frequency intervals; call the tool iff there are any. */
  method RemoveBadChannels(file: string, badchans: Option<seq<int>>,
                           badchanIntervals: Option<seq<(int, int)>>,
                           badfreqs: Option<seq<real>>,
                           badfreqIntervals: Option<seq<(real, real)>>, cfg: Config)
    returns (call: Option<PazCall>)
    ensures var chans, chanIv := badchans.GetOr(cfg.badchans), badchanIntervals.GetOr(cfg.badchanIntervals);
      var freqs, freqIv := badfreqs.GetOr(cfg.badfreqs), badfreqIntervals.GetOr(cfg.badfreqIntervals);
      && (call.None? <==> chans == [] && chanIv == [] && freqs == [] && freqIv == [])
      && (call.Some? ==> call.value == PazCall(ChanZaplets(chans, chanIv, freqs, freqIv), file))
  {
    var chans := badchans.GetOr(cfg.badchans);
    var chanIv := badchanIntervals.GetOr(cfg.badchanIntervals);
    var freqs := badfreqs.GetOr(cfg.badfreqs);
    var freqIv := badfreqIntervals.GetOr(cfg.badfreqIntervals);
    var zaplets: seq<Zaplet> := [];
    if chans != [] {
      zaplets := zaplets + [ChanList(chans)];
    }
    zaplets := Extend(zaplets, chanIv, ChanIntervalOf);
    if freqs != [] {
      zaplets := zaplets + [FreqList(freqs)];
    }
    zaplets := Extend(zaplets, freqIv, FreqIntervalOf);
    assert zaplets == ChanZaplets(chans, chanIv, freqs, freqIv);
    ChanZapletsAt(chans, chanIv, freqs, freqIv, 0);
    if zaplets != [] {
      call := Some(PazCall(zaplets, file));
    } else {
      call := None;
    }
  }
}
