/** Failure-carrying values shared by the model: an optional value for a key
    that may be absent, and a result for an operation that may throw. */
module Wrappers {

  datatype Option<+T> = None | Some(value: T)

  datatype Result<+R, +E> = Success(value: R) | Failure(error: E)
}
