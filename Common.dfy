/** Small failure-carrying wrappers shared by the other modules. */
module Common {

  datatype Option<+T> = None | Some(value: T)

  /** The outcome of a computation that can throw in the source. */
  datatype Result<+T> = Ok(value: T) | Err(message: string)
}
