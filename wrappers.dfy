/** Failure-carrying results shared by the loader and the command-line layer. */
module Wrappers {

  datatype Option<+T> = None | Some(value: T)

  /** A value, or the error a Python `raise` would have carried. */
  datatype Result<+T, +E> = Success(value: T) | Failure(error: E)
}
