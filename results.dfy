/** Option and Result values standing for Go's nil results and `(T, error)` returns. */
module Results {

  /** A value that may be absent (a nil interface value in the source). */
  datatype Option<+T> = None | Some(value: T)

  /** The outcome of a call that returns a value or an error; the error is its message, `err.Error()`. */
  datatype Result<+T> = Ok(value: T) | Err(msg: string)
}
