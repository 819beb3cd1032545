/** Option and Result types used for the source's `undefined` results and thrown errors. */
module Wrappers {

  datatype Option<+T> = None | Some(value: T)

  /** `Failure` carries the message of the `Error` the source throws or returns. */
  datatype Result<+R, +E> = Success(value: R) | Failure(error: E)

  /** A check that either passes or fails with a message. */
  datatype Outcome<+E> = Pass | Fail(error: E)
}
