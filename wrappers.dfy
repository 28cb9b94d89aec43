/** Optional values and results with an error, used for the fields and inputs
    that the screens treat as possibly missing or invalid. */
module Wrappers {

  /** A value that may be absent (a missing JSON field, a missing map key). */
  datatype Option<+T> = None | Some(value: T) {

    /** The value, or `default` when absent: the `x || default` idiom of the screens. */
    function GetOr(default: T): T {
      match this
      case Some(v) => v
      case None => default
    }
  }

  /** The outcome of an operation that may be rejected with a reason. */
  datatype Result<+T, +E> = Ok(value: T) | Err(error: E)
}
