/** Failure-carrying values shared by every module: Go's `(T, error)` pairs. */
module Results {

  datatype Option<+T> = None | Some(value: T)

  /** A Go `(value, error)` return: the error is its message text. */
  datatype Result<+T> = Ok(value: T) | Err(error: string)
}
