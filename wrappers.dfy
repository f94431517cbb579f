/** Option and Result, the two failure-carrying datatypes the model uses. */
module Wrappers {

  /** An optional value: `None` stands for JavaScript's `null` or an absent property. */
  datatype Option<+T> = None | Some(value: T)

  /** The outcome of an operation that either returns a value or throws. */
  datatype Result<+T, +E> = Ok(value: T) | Err(error: E)
}
