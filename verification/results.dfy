/** Failure-carrying datatypes shared by the model: an optional value, the
    exception the host raises for a bad parameter, and a value-or-error result. */
module Results {

  /** An optional value; None stands for a null pointer or an absent key. */
  datatype Option<+T> = None | Some(value: T)

  /** The host's BadProperty exception, with its message. */
  datatype Error = BadProperty(message: string)

  /** Either the value an operation returns or the exception it throws. */
  datatype Result<+T> = Ok(value: T) | Err(error: Error)
}
