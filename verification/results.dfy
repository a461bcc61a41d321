/** Failure-carrying return values used where the Go handlers answer with an
    error response (or would panic) instead of a value. */
module Results {

  datatype Option<+T> = None | Some(value: T)

  datatype Result<+T, +E> = Ok(value: T) | Err(error: E)
}
