/** Failure-carrying results used for the Python exceptions of the pipeline. */
module Wrappers {

  /** `Success(value)` or `Failure(error)`, in place of a raised exception. */
  datatype Result<+T, +E> = Success(value: T) | Failure(error: E)
}
