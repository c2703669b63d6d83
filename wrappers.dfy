/** Option and Result, used for missing values and for the errors the source raises. */
module Wrappers {

  /** A value that may be missing (pandas' NaN). */
  datatype Option<+T> = None | Some(value: T)

  /** The outcome of an operation that may raise an exception. */
  datatype Result<+R, +E> = Success(value: R) | Failure(error: E)
}
