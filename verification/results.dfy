/** Optional values and fallible results, used for Python's `None` and for
    the exceptions the stages raise. */
module Results {

  /** `None` models Python's `None` (an unset option), distinct from every value. */
  datatype Option<T> = None | Some(value: T) {

    /** The value, or `default` when unset (Python's `dict.get(key, default)`). */
    function GetOr(default: T): T
    {
      match this
      case Some(v) => v
      case None => default
    }
  }

  /** `Err` models an exception that aborts the stage. */
  datatype Result<T, E> = Ok(value: T) | Err(error: E)
}
