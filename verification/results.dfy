/** Failure-carrying result types used by the driver's fallible operations. */
module Results {

  /** An optional value; `None` plays the role of a nil pointer argument. */
  datatype Option<+T> = None | Some(value: T)

  /** Either a value or an error, like a Go `(value, error)` pair. */
  datatype Result<+T, +E> = Ok(value: T) | Err(error: E)
}
