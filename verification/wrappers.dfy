/** Failure-compatible wrappers used throughout the model: an optional value
    (a nullable column or a lookup that finds nothing) and a result that is
    either a value or the error a call would have thrown. */
module Wrappers {

  datatype Option<+T> = None | Some(value: T)

  datatype Result<+T, +E> = Success(value: T) | Failure(error: E)
}
