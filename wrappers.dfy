/** Option and Result, used for Python's `None` and for exceptions that end an operation. */
module Wrappers {

  datatype Option<+T> = None | Some(value: T)

  /** `Failure(key)` stands for a `KeyError` raised with that key. */
  datatype Result<+R, +E> = Success(value: R) | Failure(error: E)
}
