/** Option and Result, the two optional/fallible shapes the bridge uses. */
module Wrappers {

  /** Swift's `T?`: a value that may be absent. */
  datatype Option<+T> = None | Some(value: T) {
    function GetOr(default: T): T {
      match this
      case Some(v) => v
      case None => default
    }
  }

  /** The value of a `throws` call: either its result or the error it threw. */
  datatype Result<+R, +E> = Success(value: R) | Failure(error: E)
}
