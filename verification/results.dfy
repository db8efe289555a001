/** Option and Result shared by the sensor models. */
module Results {

  /** A value that may be absent (a register never written). */
  datatype Option<+T> = None | Some(value: T)

  /** The outcome of an operation that Python would end by raising an exception. */
  datatype Result<+T, +E> = Ok(value: T) | Err(error: E)
}
