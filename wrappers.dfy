/** Wrappers shared by the modules of this model. */
module Wrappers {

  /** A value that may be absent: JavaScript's `null` / `undefined`. */
  datatype Option<+T> = None | Some(value: T)

  /** The settled state of a promise: fulfilled with a value or rejected with an error. */
  datatype Result<+T, +E> = Success(value: T) | Failure(error: E)
}
