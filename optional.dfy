/** Optional values and results, used where the source has null pointers and exceptions. */
module Optional {
  datatype Option<+T> = None | Some(value: T)

  datatype Result<+T, +E> = Success(value: T) | Failure(error: E)
}
