/** Failure-carrying values shared by both agents. */
module Wrappers {

  datatype Option<+T> = None | Some(value: T)

  /** A value, or the text of the exception that stopped its computation. */
  datatype Result<+T, +E> = Success(value: T) | Failure(error: E)
}
