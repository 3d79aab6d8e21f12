/** Failure-carrying values shared by every module of the model: a Python
    `None`-or-value, and the two shapes a call that may raise takes. */
module Wrappers {

  datatype Option<+T> = None | Some(value: T)

  /** A call that returns a value or raises an exception described by `error`. */
  datatype Result<+T, +E> = Ok(value: T) | Err(error: E)

  /** A call that returns nothing or raises an exception described by `error`. */
  datatype Outcome<+E> = Pass | Fail(error: E)
}
