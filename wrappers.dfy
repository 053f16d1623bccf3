/** Failure-carrying values shared by the whole model. */
module Wrappers {

  /** A nullable / optional value (JavaScript's `null` or `undefined` is `None`). */
  datatype Option<+T> = None | Some(value: T)

  /** The value of an operation that either returns or throws. */
  datatype Result<+R, +E> = Success(value: R) | Failure(error: E)

  /** The outcome of an operation that returns nothing but may throw. */
  datatype Outcome<+E> = Pass | Fail(error: E)
}
