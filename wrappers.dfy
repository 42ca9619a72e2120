/** Optional values and results with an error, used for C#'s nullable references and thrown
    exceptions. */
module Wrappers {

  /** `None` stands for a null reference. */
  datatype Option<+T> = None | Some(value: T)

  /** `Failure(e)` stands for an exception `e` thrown instead of producing a value. */
  datatype Result<+T, +E> = Success(value: T) | Failure(error: E)
}
