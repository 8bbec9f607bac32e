/** Option, Result and Outcome: the failure-carrying values used in place of
    JavaScript's `undefined` and thrown exceptions. */
module Wrappers {

  /** A value that may be missing (a JavaScript property that is absent or falsy). */
  datatype Option<+T> = None | Some(value: T)

  /** The result of an operation that either yields a value or fails with an error. */
  datatype Result<+R, +E> = Success(value: R) | Failure(error: E)

  /** The result of an operation that yields nothing on success and fails with an error. */
  datatype Outcome<+E> = Pass | Fail(error: E)
}
