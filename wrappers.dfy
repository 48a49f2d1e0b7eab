/** Failure-carrying result types, standing in for the C++ exceptions of the source. */
module Wrappers {

  datatype Option<+T> = None | Some(value: T)

  datatype Result<+R, +E> = Success(value: R) | Failure(error: E)
}
