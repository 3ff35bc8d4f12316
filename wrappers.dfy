/** Option and Result, the two failure-carrying wrappers the model uses. */
module Wrappers {

  /** A value that may be missing: Python's `None` versus a present value. */
  datatype Option<+T> = None | Some(value: T)

  /** The outcome of an operation that may fail with an error of type E. */
  datatype Result<+T, +E> = Success(value: T) | Failure(error: E)
}
