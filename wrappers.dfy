/** Option and Result datatypes used across the model. */
module Wrappers {

  /** A value that may be missing: the model's rendering of pandas NA/NaN and of Python's None. */
  datatype Option<+T> = None | Some(value: T)

  /** Either a computed value or the reason the computation was given up. */
  datatype Result<+R, +E> = Success(value: R) | Failure(error: E)
}
