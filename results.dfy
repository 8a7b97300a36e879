/** Failure-carrying values used throughout the model. */
module Results {
  datatype Option<+T> = None | Some(value: T)

  /** The outcome of an operation that can throw or abort: a value, or the reason it failed. */
  datatype Result<+T, +E> = Ok(value: T) | Err(error: E)
}
