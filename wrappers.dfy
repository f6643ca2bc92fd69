/** Option and Result, used for absent keys and for the exceptions a step raises. */
module Wrappers {

  /** An optional value: `None` stands for a key that is absent from a state dictionary. */
  datatype Option<+T> = None | Some(value: T)

  /** The outcome of an operation that may raise. */
  datatype Result<+T, +E> = Ok(value: T) | Err(error: E)
}
