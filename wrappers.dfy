/** Optional values and success/failure results, shared by every module. */
module Wrappers {

  /** A value that may be absent: Python's None, JavaScript's null or undefined. */
  datatype Option<+T> = None | Some(value: T) {

    /** Python's `d.get(key, default)` once the lookup has produced this option. */
    function GetOr(default: T): T
    {
      match this
      case Some(v) => v
      case None => default
    }
  }

  /** The outcome of an operation that can fail with an error of type E. */
  datatype Result<+T, +E> = Ok(value: T) | Err(error: E)
}
