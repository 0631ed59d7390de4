/** Failure-carrying return values for the pipeline's assertion and lookup errors. */
module Results {

  datatype Option<+T> = None | Some(value: T)

  datatype Result<+T, +E> = Ok(value: T) | Err(error: E)

  /** The outcome of an operation that only succeeds or fails (a Python `assert`). */
  datatype Outcome<+E> = Pass | Fail(error: E)
}
