/** Option, result and outcome types shared by the other modules. */
module Wrappers {

  datatype Option<+T> = None | Some(value: T)

  /** The value of an operation, or the error it raised. */
  datatype Result<+R, +E> = Success(value: R) | Failure(error: E)

  /** The completion of an operation that returns nothing, or the error it raised. */
  datatype Outcome<+E> = Pass | Fail(error: E)
}
