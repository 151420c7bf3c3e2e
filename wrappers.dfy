/** The Option and Result datatypes shared by the modules. */
module Wrappers {

  /** A value that may be missing (JavaScript's `undefined` or `null`). */
  datatype Option<+T> = None | Some(value: T)

  /** The outcome of an operation that throws `error` in the program. */
  datatype Result<+T, +E> = Ok(value: T) | Err(error: E)
}
