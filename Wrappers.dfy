/** Option and Result, used for nullable values, missing record fields and
    settled promises. */
module Wrappers {

  /** A value that may be absent (`null` or `undefined` in the page). */
  datatype Option<+T> = None | Some(value: T) {

    /** The value, or `default` when absent (the `??` operator). */
    function GetOr(default: T): T {
      match this
      case Some(v) => v
      case None => default
    }
  }

  /** The outcome of an awaited call: a value, or what it threw. */
  datatype Result<+R, +E> = Success(value: R) | Failure(error: E)
}
