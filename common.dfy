/** Failure-carrying wrappers shared by the other modules. */
module Common {

  datatype Option<+T> = None | Some(value: T)

  /** A value, or the message of the exception that prevented it. */
  datatype Result<+T> = Success(value: T) | Failure(message: string)
}
