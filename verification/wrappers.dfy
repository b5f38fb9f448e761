/** `Option` (a Kotlin nullable, `T?`) and `Result` (a call that either
    returns or throws), used across the model. */
module Wrappers {

  /** A Kotlin nullable: `None` is `null`. */
  datatype Option<+T> = None | Some(value: T)

  /** The outcome of a call that may throw: `Failure` carries the exception. */
  datatype Result<+R, +E> = Success(value: R) | Failure(error: E)
}
