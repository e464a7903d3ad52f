/** Optional values (the source's nullable references and `int?`) and results
    (a value, or the error that replaced it). */
module Wrappers {

  datatype Option<+T> = None | Some(value: T)

  datatype Result<+T, +E> = Success(value: T) | Failure(error: E)
}
