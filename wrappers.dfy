/** Failure-carrying results shared by the modules of the model. */
module Wrappers {

  datatype Option<+T> = None | Some(value: T)

  /** The value of an operation that either succeeds or raises an error
      (a C++ exception in the modelled code). */
  datatype Result<+R> = Success(value: R) | Failure(error: string)

  /** The outcome of an operation that returns nothing but may raise. */
  datatype Outcome = Pass | Fail(error: string)
}
