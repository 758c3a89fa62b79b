/** Option and Result: Python's `None`-or-value and error-or-value, as datatypes. */
module Options {

  /** `None` is Python's `None` (or a missing dictionary key, or pandas' NaN, as each use says). */
  datatype Option<+T> = None | Some(value: T) {

    /** `d.get(key, default)` once the lookup has produced this option. */
    function GetOr(default: T): T {
      match this
      case Some(v) => v
      case None => default
    }
  }

  /** The outcome of a step that either produces a value or stops for a stated reason. */
  datatype Result<+T, +E> = Ok(value: T) | Err(error: E)
}
