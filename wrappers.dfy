/** Option and Result values shared by the whole model. */
module Wrappers {

  /** A value that may be absent; `None` stands for a C# `null` reference. */
  datatype Option<+T> = None | Some(value: T)

  /** The outcome of a constructor that either builds a value or throws. */
  datatype Result<+T, +E> = Ok(value: T) | Err(error: E)
}
