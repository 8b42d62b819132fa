/** Option and Result, the failure-compatible wrappers the rest of the model uses. */
module Wrappers {

  datatype Option<+T> = None | Some(value: T)

  /** A value, or the fault that ended the computation that should have produced it. */
  datatype Result<+T, +E> = Success(value: T) | Failure(error: E)
}
