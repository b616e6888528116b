/** Option and Result, for the absent values and failed calls of the stores. */
module Wrappers {

  /** A value that may be absent: Rust's Option */
  datatype Option<+T> = None | Some(value: T)

  /** The outcome of a call into a store: Rust's Result, whose error value the
      handlers never inspect */
  datatype Result<+T> = Ok(value: T) | Err
}
