/** Option and Result, the shapes the TypeScript code expresses with
    `undefined` and with thrown errors. */
module Wrappers {

  /** A value that may be absent (`T | undefined`). */
  datatype Option<+T> = None | Some(value: T) {
    function GetOr(default: T): T {
      match this
      case Some(v) => v
      case None => default
    }
  }

  /** A value or the error an operation raises instead of returning. */
  datatype Result<+R, +E> = Success(value: R) | Failure(error: E)
}
