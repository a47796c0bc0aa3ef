/** Failure-carrying datatypes shared by the rest of the model. */
module Wrappers {

  /** A Python value that may be `None`. */
  datatype Option<+T> = None | Some(value: T)

  /** The outcome of a tool call: its return value, or the message of the exception it raised. */
  datatype Result<+R, +E> = Success(value: R) | Failure(error: E)
}
