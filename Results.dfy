/** Failure-carrying values shared by the other modules. */
module Results {

  datatype Option<+T> = None | Some(value: T)

  /** The outcome of an operation the library answers with an exception on failure. */
  datatype Result<+T, +E> = Ok(value: T) | Err(error: E)
}
