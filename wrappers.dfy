/** Optional values and results with an error, as used across the model. */
module Wrappers {

  /** A value that may be absent: absent dictionary keys, `dict.get` misses. */
  datatype Option<+T> = None | Some(value: T) {

    /** The value if present, else `default` (Python's `d.get(k, default)`). */
    function GetOr(default: T): T {
      match this
      case Some(v) => v
      case None => default
    }
  }

  /** The outcome of a stage: either its value or the exception it raises. */
  datatype Result<+T, +E> = Ok(value: T) | Err(error: E)
}
