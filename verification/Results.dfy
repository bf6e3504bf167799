/** The two sum types the models share. */
module Results {

  datatype Option<+T> = None | Some(value: T)

  /** Result of an operation the source lets fail by throwing, panicking or returning an error. */
  datatype Result<+T, +E> = Ok(value: T) | Err(error: E)
}
