/** Failure-carrying values shared by every module: Go's `error` results and nil-able values. */
module Results {

  /** A value that may be absent (a nil pointer or a nil error in the source). */
  datatype Option<+T> = None | Some(value: T)

  /** A Go error value, identified by its message. */
  datatype Error = Error(message: string)

  /** A value or the error that prevented computing it. */
  datatype Result<+T> = Ok(value: T) | Err(error: Error)
}
