/** Failure-carrying datatypes used for the exceptions of the modelled code. */
module Wrappers {

  /** A value, or Python's `None`. */
  datatype Option<+T> = None | Some(value: T)

  /** A returned value, or the exception that was raised instead. */
  datatype Result<+T, +E> = Ok(value: T) | Err(error: E)

  /** Completion of a call that returns nothing of interest, or the exception it raised. */
  datatype Outcome<+E> = Pass | Fail(error: E)
}
