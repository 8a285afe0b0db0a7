/** Option and Result, the failure-carrying values the rest of the model returns. */
module Wrappers {

  /** An optional value; None stands for JavaScript's `undefined` / an absent property. */
  datatype Option<+T> = None | Some(value: T) {
    function GetOr(default: T): T {
      match this
      case Some(v) => v
      case None => default
    }
  }

  /** The outcome of an operation that can throw. */
  datatype Result<+R, +E> = Success(value: R) | Failure(error: E)
}
