/** Optional values and success-or-failure results, shared by the rest of the model. */
module Wrappers {

  datatype Option<+T> = None | Some(value: T)

  /** What a PHP controller action does: return a value, or throw an exception. */
  datatype Result<+R, +E> = Success(value: R) | Failure(error: E)
}
