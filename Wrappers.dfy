/** Failure-carrying values that stand for the exceptions of the modelled code. */
module Wrappers {

  datatype Option<+T> = None | Some(value: T)

  datatype Result<+T, +E> = Success(value: T) | Failure(error: E)

  /** The outcome of an operation that returns nothing but may throw. */
  datatype Outcome<+E> = Pass | Fail(error: E)
}
