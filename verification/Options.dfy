/** Optional values and the results of operations that can throw in the original. */
module Options {

  datatype Option<+T> = None | Some(value: T)

  datatype Result<+T> = Ok(value: T) | Thrown
}
