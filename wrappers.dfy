/** Failure-carrying result types used throughout the model: a C++ exception
    thrown by the client becomes a `Failure` or a `Fail` value. */
module Wrappers {

  datatype Option<+T> = None | Some(value: T)

  datatype Result<+R, +E> = Success(value: R) | Failure(error: E)

  /** The result of an operation that returns nothing (a `void` member). */
  datatype Outcome<+E> = Pass | Fail(error: E)
}
