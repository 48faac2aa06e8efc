/** Failure-carrying wrappers shared by every controller model. */
module Results {

  /** An optional value: `None` stands for a field the request left undefined. */
  datatype Option<+T> = None | Some(value: T)

  /** The outcome of a controller action: the new value, or the error it answers with. */
  datatype Result<+T, +E> = Ok(value: T) | Err(error: E)
}
