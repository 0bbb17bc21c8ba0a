/** Failure-carrying values: JavaScript's `undefined`/`null` and thrown errors,
    made explicit. */
module Wrappers {

  /** A value that may be absent (`undefined` in the source). */
  datatype Option<+T> = None | Some(value: T)

  /** The outcome of an operation that the source would let throw. */
  datatype Result<+T, +E> = Ok(value: T) | Err(error: E)
}
