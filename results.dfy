/** Option and Result values shared by every module of the model. */
module Results {

  datatype Option<+T> = None | Some(value: T)

  /** The value of a computation that either returns or raises; `error` is the text of str(e). */
  datatype Result<+T, +E> = Ok(value: T) | Err(error: E)
}
