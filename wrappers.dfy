/** Option and Result: absent values and the two outcomes of a call that may fail. */
module Wrappers {

  /** A value that may be absent (JavaScript's `null` or `undefined`). */
  datatype Option<+T> = None | Some(value: T)

  /** The settled outcome of a promise: fulfilled with a value or rejected with an error. */
  datatype Result<+T, +E> = Success(value: T) | Failure(error: E)
}
