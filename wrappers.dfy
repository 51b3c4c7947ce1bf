/** Optional values and results with an error: the shapes the Python code
    expresses with `None` and with raised exceptions. */
module Wrappers {
  datatype Option<T> = None | Some(value: T)

  datatype Result<T, E> = Ok(value: T) | Err(error: E)
}
