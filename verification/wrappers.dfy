/** Failure-carrying values shared by every module of the model. */
module Wrappers {

  /** Python's `None` or a present value. */
  datatype Option<+T> = None | Some(value: T)

  /** A value, or the message of the exception that was raised instead. */
  datatype Result<+R, +E> = Success(value: R) | Failure(error: E)
}
