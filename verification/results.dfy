/** Failure-carrying values shared by every module of the relay model. */
module Results {

  /** A value that may be missing (an unset environment variable, a failed parse). */
  datatype Option<T> = None | Some(value: T)

  /** The outcome of an operation that can throw: either its value or the error message. */
  datatype Result<T> = Ok(value: T) | Err(message: string)
}
