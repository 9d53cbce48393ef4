/** Option, Result and Outcome values used across the tracker model. */
module Wrappers {

  /** A value that may be absent (`undefined` in the configuration options). */
  datatype Option<+T> = None | Some(value: T)

  /** The result of an operation that either yields a value or throws an error. */
  datatype Result<+R, +E> = Success(value: R) | Failure(error: E)

  /** The result of an operation that returns nothing or throws an error. */
  datatype Outcome<+E> = Pass | Fail(error: E)
}
