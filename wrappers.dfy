/** Optional values and success/failure results, used for the library calls
    whose outcome the model takes as input (json.loads, datetime.fromisoformat). */
module Wrappers {

  datatype Option<+T> = None | Some(value: T)

  datatype Result<+R, +E> = Success(value: R) | Failure(error: E)
}
