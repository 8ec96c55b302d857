/** Option, Result and Outcome: JavaScript's `undefined` and thrown errors as values. */
module Wrappers {

  /** `undefined` (None) or a present value. */
  datatype Option<+T> = None | Some(value: T) {

    /** JavaScript's `x || default` for a value that is either undefined or truthy. */
    function GetOr(default: T): (r: T)
      ensures Some? ==> r == value
      ensures None? ==> r == default
    {
      match this
      case Some(v) => v
      case None => default
    }
  }

  /** A value, or the error a function throws instead of returning one. */
  datatype Result<+T, +E> = Success(value: T) | Failure(error: E)

  /** Completion of an action that returns nothing but may throw. */
  datatype Outcome<+E> = Pass | Fail(error: E)
}
