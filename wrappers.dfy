/** Option and Result, the two failure-carrying shapes used throughout the model. */
module Wrappers {

  datatype Option<+T> = None | Some(value: T)

  /** The outcome of an engine operation: a value, or the error the engine throws. */
  datatype Result<+T, +E> = Success(value: T) | Failure(error: E)
}
