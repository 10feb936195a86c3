/** The Option and Result datatypes shared by the modules of this model. */
module Wrappers {

  /** A value that may be missing; pandas' NaN is `None`. */
  datatype Option<+T> = None | Some(value: T)

  /** The outcome of a computation that may raise. */
  datatype Result<+R, +E> = Success(value: R) | Failure(error: E)
}
