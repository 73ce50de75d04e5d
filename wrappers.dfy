/** The Option and Result datatypes shared by every module of the model. */
module Wrappers {

  /** A value that may be absent: C#'s `T?` (nullable) and the outcome of a `TryParse`. */
  datatype Option<+T> = None | Some(value: T)

  /** The outcome of an operation that can throw: a value, or the exception's message. */
  datatype Result<+T> = Success(value: T) | Failure(message: string)
}
