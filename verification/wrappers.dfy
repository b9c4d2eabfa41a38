/** Option and Result, the two failure-carrying shapes the rest of the model uses. */
module Wrappers {

  /** A value that may be absent (a Kotlin nullable, an unset view property). */
  datatype Option<+T> = None | Some(value: T)

  /** Either a value or the error the Kotlin code would have thrown. */
  datatype Result<+R, +E> = Success(value: R) | Failure(error: E)
}
