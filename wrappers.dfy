/** Absence and failure signals shared by the model. */
module Wrappers {

  /** A value that may be missing. For a parsed number, `None` stands for NaN. */
  datatype Option<+T> = None | Some(value: T)

  /** The outcome of an operation that either yields a value or raises an error. */
  datatype Result<+R, +E> = Success(value: R) | Failure(error: E)
}
