/** Option, Result and Outcome: a missing record (`null`) and a thrown error, as values. */
module Wrappers {

  datatype Option<+T> = None | Some(value: T)

  datatype Result<+T, +E> = Success(value: T) | Failure(error: E)

  /** The settled outcome of a call that returns nothing of interest. */
  datatype Outcome<+E> = Pass | Fail(error: E)
}
