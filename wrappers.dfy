/** Optional values (Java's nullable references) and outcomes that may be an error (Java exceptions). */
module Wrappers {

  datatype Option<T> = None | Some(value: T)

  datatype Result<T, E> = Success(value: T) | Failure(error: E)

  /** The value, or the given default when absent: Java's `x != null ? x : d`. */
  function OrElse<T>(o: Option<T>, default: T): T
  {
    if o.Some? then o.value else default
  }
}
