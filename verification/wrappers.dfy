/** Option and Result, the two failure-carrying shapes the model needs. */
module Wrappers {

  /** A value that may be absent; stands for a Java reference that may be null. */
  datatype Option<+T> = None | Some(value: T)

  /** Either a value or an error message; stands for a call that may throw. */
  datatype Result<+R, +E> = Success(value: R) | Failure(error: E)
}
