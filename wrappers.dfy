/** Option and Result, the failure-carrying values every resolver returns. */
module Wrappers {

  datatype Option<+T> = None | Some(value: T)

  /** The settled outcome of a deferred resolution: a value, or the reason it was rejected. */
  datatype Result<+T, +E> = Success(value: T) | Failure(error: E)
}
