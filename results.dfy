/** Optional values and results that carry an error, used for Python's
    exceptions and missing values. */
module Results {

  datatype Option<+T> = None | Some(value: T)

  datatype Result<+T, +E> = Ok(value: T) | Err(error: E)
}
