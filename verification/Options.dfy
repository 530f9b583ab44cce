/** Optional values and error returns, shared by the other modules. */
module Options {
  datatype Option<+T> = None | Some(value: T)

  datatype Result<+T, +E> = Ok(value: T) | Err(error: E)
}
