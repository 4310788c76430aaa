/** Failure-carrying datatypes shared by the catalog client and the orchestrator. */
module Wrappers {

  /** A value that may be absent: Python's `None` versus a present value. */
  datatype Option<+T> = None | Some(value: T)

  /** The outcome of a computation that may raise: a value or the fault it raised. */
  datatype Result<+R, +E> = Success(value: R) | Failure(error: E)
}
