/** Option and Result, the failure-carrying values used across the model. */
module Wrappers {

  /** A JavaScript value that may be `undefined` (or `null`), or an optional schema field. */
  datatype Option<+T> = None | Some(value: T) {
    function GetOr(default: T): T {
      match this
      case Some(v) => v
      case None => default
    }
  }

  /** The outcome of a stage that may fail with an error tag. */
  datatype Result<+T, +E> = Success(value: T) | Failure(error: E)
}
