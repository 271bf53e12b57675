/** Optional values and results with an error, used wherever the Python code
    returns `None` or raises an exception that a caller turns into a value. */
module Wrappers {

  /** `None` stands for Python's `None` (or an absent key). */
  datatype Option<+T> = None | Some(value: T) {

    /** The wrapped value, or `default` when there is none (`dict.get(k, default)`). */
    function GetOr(default: T): T {
      match this
      case Some(v) => v
      case None => default
    }
  }

  /** The outcome of a step that either produces a value or fails with a message. */
  datatype Result<+R, +E> = Success(value: R) | Failure(error: E)
}
