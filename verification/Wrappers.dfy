/** Failure-compatible results shared by all components. */
module Wrappers {

  datatype Option<+T> = None | Some(value: T)

  /** `Err` carries the reason of an error return or of a failed run-time assertion. */
  datatype Result<+T, +E> = Ok(value: T) | Err(error: E)
}
