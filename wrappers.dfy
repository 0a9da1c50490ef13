/** Failure-carrying values shared by the modules of this model. */
module Wrappers {

  /** A value that may be missing (a nil pointer or an absent field). */
  datatype Option<+T> = None | Some(value: T)

  /** A value, or the error that prevented computing it (Go's `(T, error)`). */
  datatype Result<+T, +E> = Success(value: T) | Failure(error: E)

  /** Success without a value, or an error (Go's plain `error` return). */
  datatype Outcome<+E> = Pass | Fail(error: E)
}
