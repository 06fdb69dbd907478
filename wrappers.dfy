/** Failure-carrying values: a missing JavaScript value, and the outcome of a step that can throw. */
module Wrappers {

  datatype Option<+T> = None | Some(value: T)

  datatype Result<+R, +E> = Success(value: R) | Failure(error: E)
}
