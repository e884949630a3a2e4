/** The Option and Result datatypes shared by every module of the model. */
module Wrappers {

  /** A value that may be missing: a cell pandas could not read as a number, an empty slot. */
  datatype Option<+T> = None | Some(value: T)

  /** The outcome of an operation that may raise: the value, or the text of the exception. */
  datatype Result<+R, +E> = Success(value: R) | Failure(error: E)
}
