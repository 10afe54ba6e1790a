/** The Option, Result and Outcome types shared by the session modules. */
module Wrappers {

  /** A value that may be absent: JavaScript's `null` for the signed-in user. */
  datatype Option<+T> = None | Some(value: T)

  /** A computed value, or the error that a JavaScript `throw` would carry. */
  datatype Result<+R, +E> = Success(value: R) | Failure(error: E)

  /** The outcome of a statement that either completes or throws. */
  datatype Outcome<+E> = Pass | Fail(error: E)
}
