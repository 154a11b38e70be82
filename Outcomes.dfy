/** Success/failure wrappers for the exceptions the pipeline can raise. */
module Outcomes {

  /** A value, or the error the Python code would have raised instead. */
  datatype Result<+T, +E> = Success(value: T) | Failure(error: E)

  /** A value that may be missing. */
  datatype Option<+T> = None | Some(value: T)
}
