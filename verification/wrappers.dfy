/** Option and Result values used in place of JavaScript's `undefined` and thrown exceptions. */
module Wrappers {

  /** A value that may be absent (`undefined` or `null` in the JavaScript source). */
  datatype Option<+T> = None | Some(value: T)

  /** The outcome of an operation that either returns a value or throws. */
  datatype Result<+R, +E> = Success(value: R) | Failure(error: E)
}
