/** Option and Result, the two failure-carrying datatypes the model uses. */
module Wrappers {

  /** Kotlin's nullable `T?`: `None` stands for `null`. */
  datatype Option<+T> = None | Some(value: T)

  /** The outcome of a call that either returns a value (`Ok`) or throws (`Err`). */
  datatype Result<+R, +E> = Ok(value: R) | Err(error: E)
}
