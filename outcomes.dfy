/** Success/failure wrappers shared by the model of the `init` and `add api` commands. */
module Outcomes {

  /** A value that may be absent: a Go function returning `(T, error)` or a nil reference. */
  datatype Option<+T> = None | Some(value: T)

  /** A computation that either produced a value or stopped with an error. */
  datatype Result<+T, +E> = Ok(value: T) | Err(error: E)
}
