/** The per-observation configuration that the cleaning entry points fall
    back to when an argument is left as `None`. */
module Settings {

  import opened Options

  /** Configuration values read by clean.py. A list the configuration leaves
      unset behaves like the empty list (both are falsy where clean.py
      checks them), and an unset trim count like zero. */
  datatype Config = Config(
    nchanToTrim: int,
    badsubints: seq<int>,
    badsubintIntervals: seq<(int, int)>,
    badchans: seq<int>,
    badchanIntervals: seq<(int, int)>,
    badfreqs: seq<real>,
    badfreqIntervals: seq<(real, real)>,
    cleanStrategy: Option<string>)
}
