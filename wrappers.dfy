/** Optional values and results, used for Python's `None` and raised exceptions. */
module Wrappers {

  /** A value that may be missing: Python's `None`, or a dictionary key that is absent. */
  datatype Option<+T> = None | Some(value: T) {
    /** The value, or `default` when missing (`d.get(key, default)`). */
    function GetOr(default: T): T {
      match this
      case Some(v) => v
      case None => default
    }
  }

  /** The outcome of a computation that may raise. */
  datatype Result<+T, +E> = Success(value: T) | Failure(error: E)
}
