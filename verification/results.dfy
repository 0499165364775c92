/** Optional values and the outcome of a Python call that may raise. */
module Results {

  datatype Option<+T> = None | Some(value: T)

  /** The value a call returned, or the message `str(e)` of the exception it raised. */
  datatype Result<+T> = Ok(value: T) | Err(msg: string)
}
