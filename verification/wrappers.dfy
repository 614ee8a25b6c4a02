/** Failure-carrying datatypes shared by the model. */
module Wrappers {

  /** A value that may be absent; `None` also stands for pandas' NaN. */
  datatype Option<+T> = None | Some(value: T)

  /** The outcome of a computation that may fail with an error value. */
  datatype Result<+T, +E> = Success(value: T) | Failure(error: E)
}
