/** Option and Result wrappers shared by the model's modules. */
module Results {

  /** A value that may be absent, as Python's `None`-or-something. */
  datatype Option<+T> = None | Some(value: T)

  /** The outcome of an operation that may raise: `Err` carries the exception's message. */
  datatype Result<+T, +E> = Ok(value: T) | Err(error: E)
}
