/** Outcomes of the operations that can fail: an optional value and a value-or-error. */
module Results {

  datatype Option<+T> = None | Some(value: T)

  /** Either the value an operation computes or the exception the library raises instead. */
  datatype Result<+T, +E> = Ok(value: T) | Err(error: E)
}
