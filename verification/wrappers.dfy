/** Wrappers shared by the model: an optional value (a JavaScript
    `undefined`/`null` or an absent object key) and the outcome of an
    operation that may throw. */
module Wrappers {

  /** `None` is a missing value or an absent key; `Some(v)` a present one. */
  datatype Option<+T> = None | Some(value: T)

  /** The value an operation returns, or the error it throws. */
  datatype Result<+R, +E> = Success(value: R) | Failure(error: E)
}
