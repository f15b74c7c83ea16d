/** Failure-carrying result types shared by the whole model. */
module Wrappers {

  /** A value that may be absent; PHP's `null` is modelled as `None`. */
  datatype Option<+T> = None | Some(value: T)

  /** The outcome of an operation that either yields a value or throws. */
  datatype Result<+T, +E> = Success(value: T) | Failure(error: E)

  /** The outcome of a check that either returns normally or throws. */
  datatype Outcome<+E> = Pass | Fail(error: E)
}
