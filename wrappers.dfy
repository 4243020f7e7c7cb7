/** Failure-carrying values used for the controller's thrown errors and the outcomes of remote calls. */
module Wrappers {

  /** A value that may be absent: `None` stands for JavaScript's `undefined` (or `null`). */
  datatype Option<+T> = None | Some(value: T)

  /** The result of a call that returns a value or throws. */
  datatype Result<+R, +E> = Success(value: R) | Failure(error: E)

  /** The result of a call that returns nothing or throws. */
  datatype Outcome<+E> = Pass | Fail(error: E)
}
