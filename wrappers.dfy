/** Failure-compatible wrappers shared by every module of the model. */
module Wrappers {

  /** A value that may be absent: the model of a nullable pointer. */
  datatype Option<+T> = None | Some(value: T)

  /** A value, or the error that producing it raised: the model of an awaited future. */
  datatype Result<+R, +E> = Success(value: R) | Failure(error: E)

  /** The outcome of an awaited operation that yields no value. */
  datatype Outcome<+E> = Pass | Fail(error: E)
}
