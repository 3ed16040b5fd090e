/** Optional values and the two ways a Python call can end: returning a value or raising. */
module Results {

  datatype Option<+T> = None | Some(value: T)

  /** `Ok(v)`: the call returned `v`; `Err(e)`: the call raised the exception `e`. */
  datatype Outcome<+V, +E> = Ok(value: V) | Err(error: E)
}
