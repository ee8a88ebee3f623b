/** An optional value, for the arguments of clean.py that default to `None`. */
module Options {

  datatype Option<T> = None | Some(value: T)
  {
    /** The carried value, or `default` when there is none. */
    function GetOr(default: T): T
    {
      match this
      case Some(v) => v
      case None => default
    }
  }
}
