/** Failure-carrying datatypes used throughout the model. */
module Wrappers {

  /** An optional value: Python's `None` or an object. */
  datatype Option<+T> = None | Some(value: T)

  /** The outcome of a call that either returns a value or raises an error. */
  datatype Result<+R, +E> = Success(value: R) | Failure(error: E)
}
