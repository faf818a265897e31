/** Optional values and results with an error: `None` stands for a missing
    CSV cell and `Failure` for an exception the script raises. */
module Wrappers {

  datatype Option<+T> = None | Some(value: T)

  datatype Result<+R, +E> = Success(value: R) | Failure(error: E)
}
