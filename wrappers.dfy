/** Optional values and failure-carrying results, used for the source's nullable
    references and for the errors it throws. */
module Wrappers {

  /** A value that may be absent (a Kotlin nullable reference). */
  datatype Option<+T> = None | Some(value: T)

  /** A value, or the error that the source raises instead of returning one. */
  datatype Result<+R, +E> = Success(value: R) | Failure(error: E)

  /** Success without a value, or the error raised. */
  datatype Outcome<+E> = Pass | Fail(error: E)
}
