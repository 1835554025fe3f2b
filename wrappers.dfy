/** Option and Result, the two failure-carrying datatypes the rest of the model uses. */
module Wrappers {

  /** A value that may be absent: pandas' NaN/NaT, a key not in a dict. */
  datatype Option<+T> = None | Some(value: T)

  /** The outcome of a step that may raise: a value, or the reason it failed. */
  datatype Result<+T, +E> = Ok(value: T) | Err(error: E)
}
