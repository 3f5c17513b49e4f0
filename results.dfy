/** Failure-carrying results: the model's stand-in for the exceptions the source raises. */
module Results {

  datatype Option<+T> = None | Some(value: T)

  /** A computed value, or the error the source would have raised instead. */
  datatype Result<+T, +E> = Ok(value: T) | Err(error: E)

  /** The outcome of an operation that returns nothing, or raises. */
  datatype Outcome<+E> = Pass | Fail(error: E)
}
