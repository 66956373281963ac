/** The success-or-error value returned by the operations that can fail. */
module Results {

  /** Either the value an operation produced or the error it raised. */
  datatype Result<+T, +E> = Ok(value: T) | Err(error: E)
}
