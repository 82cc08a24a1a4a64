/** Small failure-carrying datatypes shared by the other modules. */
module Wrappers {

  /** An optional value: `None` or `Some(value)`, as Rust's `Option`. */
  datatype Option<+T> = None | Some(value: T)

  /** The outcome of an operation that can fail, as Rust's `result::Result`. */
  datatype Result<+T, +E> = Ok(value: T) | Err(error: E)
}
