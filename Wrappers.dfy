/** `Option` and `Result`, shared by the other modules. */
module Wrappers {

  /** A value that may be absent: the model's rendering of `null` / `undefined`. */
  datatype Option<+T> = None | Some(value: T)

  /** The outcome of a computation that either produces a value or throws an error. */
  datatype Result<+R, +E> = Success(value: R) | Failure(error: E)
}
