/** Option and Result, the two failure-carrying datatypes the model uses. */
module Wrappers {

  /** An optional value; `None` stands for Ruby's `nil`. */
  datatype Option<+T> = None | Some(value: T) {
    function GetOr(default: T): T {
      match this
      case Some(v) => v
      case None => default
    }
  }

  /** The outcome of a step that may raise: `Failure` carries what was raised. */
  datatype Result<+R, +E> = Success(value: R) | Failure(error: E)
}
