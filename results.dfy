/** Failure-carrying values: a settled promise is either fulfilled or rejected. */
module Results {

  datatype Option<+T> = None | Some(value: T)

  /** `Ok` is a fulfilled promise, `Err` a rejected one (or a synchronous throw). */
  datatype Result<+T, +E> = Ok(value: T) | Err(error: E)
}
