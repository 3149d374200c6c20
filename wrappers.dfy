/** Option and Result, standing in for Java's null and thrown exceptions. */
module Wrappers {

  /** `None` is Java's `null`. */
  datatype Option<+T> = None | Some(value: T)

  /** `Failure` is an exception thrown out of the modelled call. */
  datatype Result<+R, +E> = Success(value: R) | Failure(error: E)
}
