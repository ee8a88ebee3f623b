# RFI cleaning decisions of coast_guard's clean.py, modelled in Dafny

`clean.py` cleans radio-frequency interference out of a pulsar archive.
It has two kinds of operation:

- **Statistical cleaning.** It zero-weights (de-weights) whole frequency
  channels or sub-integrations whose scaled statistics look like
  interference.
- **Coarse cleaning.** It asks the external `paz` tool to de-weight listed
  channels, sub-integrations and frequencies, and the band edges.

This project models the decision layer of that file. It covers:

- **the weight mask**: one boolean per channel and one per
  sub-integration, updated in place;
- **the three de-weighting strategies**: `deep_clean`, `clean_simple` and
  `clean_iterative`;
- **strategy selection by pattern**: `clean_archive`;
- **the `paz` argument builders**: `trim_edge_channels`,
  `remove_bad_subints` and `remove_bad_channels`.

The statistics themselves are not part of this model. `clean.py` takes
the data and the profile removal, the scaling and the robust standard
deviation from `clean_utils`. In `deep_clean` it then computes the
per-slice mean and standard deviation itself, with numpy, and divides each
scaled vector in place by its robust standard deviation. All of this
enters the model as a `Scorer`: a function from the current channel and
sub-integration weights to the final value per slice, after that
division. From that point on `clean.py` only compares these values, so
they are `real`.

Modules:

- `Options`, `Settings`: optional arguments, and the per-observation
  configuration they fall back to.
- `Scores`: `argwhere(x >= t)` (`Flagged`), `unique` (`UniqueBelow`) and
  `argmax` (`Argmax`).
- `Masks`: the `WeightMask` class with `ZeroWeightChan` and
  `ZeroWeightSubint`; `Sweep` (de-weight a list of indices); the
  excluded count.
- `Strategies`: `DeepClean`, `CleanSimple`, `Decide`,
  `CleanIterativeRound` and `CleanIterative`.
- `Dispatch`: the `cleaners` list and `CleanArchive`.
- `Zapping`: the `Zaplet` arguments of `paz -m` and the three builders.

Three behaviours of `clean.py` are worth stating up front:

- **Threshold boundary.** `deep_clean` and `clean_simple` compare with
  `>=`, so a slice whose score equals the threshold is de-weighted
  (`Strategies.DefaultThresholdsInclusive`).
- **Pattern "clean".** It occurs in three names of `cleaners`:
  `deep_clean`, `clean_simple` and `clean_iterative`. Selecting by it
  therefore fails with three matches (`Dispatch.PatternCleanIsAmbiguous`).
- **Tie in `clean_iterative`.** When the worst channel and the worst
  sub-integration score the same, the channel is de-weighted
  (`Strategies.DefaultIterativeRounds`).

`clean_simple` and `clean_iterative` call several bare names that
`clean.py` neither defines nor imports: `get_subint_stats`,
`get_chan_stats`, `zero_weight_subint`, `zero_weight_chan` and `plot`.
The model reads them as the per-slice statistic and as the `clean_utils`
operation with the same name.

## Model

| member | source | states |
|---|---|---|
| `Scores.Flagged` | clean.py:117-118 | `argwhere(scores >= t)`: ascending, no repeats, and an index is listed iff its score reaches the threshold; a score equal to the threshold is listed |
| `Scores.UniqueBelow` | clean.py:119 | `np.unique` of the concatenated index lists: ascending, each index once, exactly the indices of the input |
| `Scores.Argmax` | clean.py:181 | `np.argmax`: an index whose score is at least every other, and the first such index |
| `Masks.Sweep` | clean.py:121-123 | de-weighting a list of indices one after another leaves a slice included iff it was included and is not listed |
| `Masks.WeightMask.constructor` | clean.py:95 | the mask starts from the archive's channel and sub-integration weights, in two distinct arrays |
| `Masks.WeightMask.ZeroWeightChan` | clean.py:123 | excludes exactly that channel in place; the excluded count grows by one iff it was included |
| `Masks.WeightMask.ZeroWeightSubint` | clean.py:144 | excludes exactly that sub-integration in place; the excluded count grows by one iff it was included |
| `Strategies.BadSlices` | clean.py:117-119 | the slices `deep_clean` de-weights on one axis: ascending, each once, and a slice is listed iff its scaled mean or scaled std reaches the threshold |
| `Strategies.DeweightChans` | clean.py:121-123 | the loop over bad channels leaves the channel weights equal to `Sweep` of the old weights |
| `Strategies.DeweightSubints` | clean.py:142-144 | the loop over bad sub-integrations leaves the sub-integration weights equal to `Sweep` of the old weights |
| `Strategies.DeepClean` | clean.py:87-144 | a channel stays included iff it was included and both its scaled mean and scaled std on the initial mask are below `chanthresh`; then a sub-integration stays included iff it was included and both its statistics, scored on the mask the channel stage left, are below `subintthresh`; channel weights do not change in the sub-integration stage |
| `Strategies.DefaultThresholdsInclusive` | clean.py:87-88 | with the default thresholds of `deep_clean` (5.0 on both axes) and `clean_simple` (1.0 in time, 3.0 in frequency), a score equal to the threshold is de-weighted and one below it is not |
| `Strategies.CleanSimple` | clean.py:156-169 | with both statistic vectors taken before any change: a sub-integration stays included iff it was included and its statistic is below `timethresh`, a channel iff it was included and its statistic is below `freqthresh`; nothing is re-weighted |
| `Strategies.Decide` | clean.py:180-197 | stop iff every statistic on both axes is below the threshold; otherwise de-weight the first worst sub-integration iff it scores strictly above every channel, else the first worst channel (ties go to the channel); the chosen slice reaches the threshold |
| `Strategies.CleanIterativeRound` | clean.py:179-197 | one loop body: scores on the current mask, the decision is `Decide`'s, exactly the decided slice is excluded and the excluded count grows by one iff it was included |
| `Strategies.CleanIterative` | clean.py:176-199 | if de-weighted slices never score at or above the threshold, the loop ends; at the end every statistic is below the threshold; each round excluded one more slice, so there were at most as many rounds as included slices; no slice is put back |
| `Strategies.DefaultIterativeRounds` | clean.py:176-197 | with the default threshold 2.0: a tie at the threshold de-weights the channel, a strictly higher sub-integration is chosen instead, and scores all below 2.0 stop the loop |
| `Dispatch.Filter` | clean.py:342 | the comprehension over `cleaners` keeps exactly the cleaners whose name matches, without repeats |
| `Dispatch.CleanArchive` | clean.py:336-351 | nothing happens iff neither the argument nor the configuration gives a pattern; otherwise the one cleaner runs iff exactly one name matches; else the error reports the pattern and the number of matching names |
| `Dispatch.ThreeMatchesFail` | clean.py:343-351 | a pattern that matches three of the four names is rejected with a count of three |
| `Dispatch.OnlyPowerWashMatches` | clean.py:342-347 | a pattern that matches `power_wash` and no other name runs `power_wash` |
| `Dispatch.AllMatchFail` | clean.py:342-351 | a pattern that matches all four names is rejected with a count of four |
| `Dispatch.PatternCleanIsAmbiguous` | clean.py:24 | with literal matching, "clean" matches `deep_clean`, `clean_simple` and `clean_iterative`, so selection fails reporting 3 |
| `Dispatch.PatternWashSelectsPowerWash` | clean.py:342-347 | "wash" matches only `power_wash`, which is then the cleaner run |
| `Dispatch.EmptyPatternMatchesAll` | clean.py:342-351 | the empty pattern matches every name, so selection fails reporting 4 |
| `Zapping.TrimEdgeChannels` | clean.py:246-254 | no call iff the trim count `n` (argument, else configuration) is at most 0; otherwise two inclusive channel intervals, each `n` channels wide, the first starting at channel 0 and the second ending at channel `nchan-1` |
| `Zapping.TrimZapsEdges` | clean.py:249-254 | a channel of the band is de-weighted by the trim iff `n > 0` and it is among the first `n` or the last `n` channels |
| `Zapping.Extend` | clean.py:282 | `list.extend` adds one zaplet per interval after the existing ones, in input order |
| `Zapping.SubintZapletsAt` | clean.py:278-282 | layout of the zaplets: the explicit sub-integration list comes first when it is non-empty, and the `k`-th interval's zaplet follows it at offset `k`, so the intervals keep their input order; there is nothing else |
| `Zapping.SubintZapletsCover` | clean.py:279-282 | a sub-integration is de-weighted iff it is listed or lies in one of the inclusive intervals |
| `Zapping.RemoveBadSubints` | clean.py:273-286 | arguments fall back to the configuration; the tool is called iff the list or the interval list is non-empty, and then with exactly those zaplets |
| `Zapping.ChanZapletsAt` | clean.py:321-329 | layout of the zaplets: channel list, channel intervals, frequency list, frequency intervals; each list appears only when non-empty, the `k`-th interval of each kind sits at offset `k` of its group, and there is nothing else |
| `Zapping.ChanZapletsZapListed` | clean.py:321-329 | every listed channel, every channel in a channel interval, every channel holding a listed frequency and every channel holding a frequency in a frequency interval is de-weighted |
| `Zapping.ChanZapletsZapOnlyListed` | clean.py:321-329 | no other channel is de-weighted |
| `Zapping.ChanZapletsCover` | clean.py:289-329 | a channel is de-weighted iff it is listed, lies in an inclusive channel interval, holds a listed frequency, or holds a frequency in an inclusive frequency interval; which frequencies a channel holds is the archive's `Band` |
| `Zapping.RemoveBadChannels` | clean.py:312-333 | arguments fall back to the configuration; the tool is called iff any of the four lists is non-empty, and then with exactly those zaplets in that order |

## Left out

- `power_wash`: interactive plotting and printing; it has no result to model.
- The statistics from `clean_utils` are not modelled: profile removal, robust std, scaling, and the per-slice statistic functions. They are given as score vectors or as a `Scorer` of the current weights. The robust std can be zero, which makes a score infinite or NaN; that floating-point behaviour is not modelled.
- `clean_hot_bins` in `deep_clean`: it repairs data values and changes no weights, so the weight mask does not see it.
- Archive I/O is not modelled: loading, `unload`, `pscrunch`, `dedisperse`, `remove_baseline` and the output file names.
- Plotting and log output are not modelled.
- `zero_weight_chan` / `zero_weight_subint` are modelled on one boolean per slice. The per-(sub-integration, channel) weight array of a real archive is not modelled.
- Shell execution of `paz` and the printf formatting of its arguments are not modelled; only the zaplets passed are.
- `prune_band`: its band edges are floating-point arithmetic over archive metadata.
- The channel frequencies of the archive are not modelled. Which channels a frequency zaplet (`-f`, `-F`) de-weights is an abstract `Band` relation: channel `i` holds some frequency in `[lo, hi]`. How `paz` matches a frequency to a channel edge is not modelled.
- `re.search` is modelled as an abstract `Search` predicate. The concrete instance is substring occurrence, which is what `re.search` does for a pattern without metacharacters.
- How `clean_archive` calls the chosen cleaner is not modelled. It passes `outfn` positionally (clean.py:347). Only `deep_clean` takes it as `unloadfn`. `clean_simple` takes it as `timethresh` and `clean_iterative` as `threshold`. `power_wash` takes no second argument, so the call raises `TypeError`. `Run(c)` therefore means that `c` was selected, not that it ran to completion.
- `main`, option parsing, the configuration globals and file copying are not modelled. Configuration values are passed as a `Config` value.
- A configuration entry left as `None` is modelled as the empty list, or as a trim count of 0. Both behave the same in `clean.py`: the list is falsy, and `None > 0` is false in Python 2.
- Strategies.CleanIterativeRound: it requires at least one channel and one sub-integration, because `np.argmax` of an empty vector raises an error and an archive always has both.
- Strategies.CleanIterative: termination is proved only under an explicit assumption about the scorers: a de-weighted slice never scores at or above the threshold. `clean.py` itself loops forever if a de-weighted slice stays the worst one.
- Strategies.CleanSimple: as written, `clean_simple` raises `NameError` at its first line, because `plot` (clean.py:157) is neither defined nor imported in clean.py. The model follows the evident intent and reads the undefined names as the per-slice statistic and the `clean_utils` operation of the same name.
- Strategies.CleanIterativeRound: as written, the loop body raises `NameError` at `get_subint_stats` (clean.py:180), which clean.py neither defines nor imports. The model follows the evident intent, as for `clean_simple`.
- Strategies.CleanIterative: the same `NameError` ends `clean_iterative` before any weight changes. The model follows the evident intent.
