/** Optional values (a missing cell, a failed lookup) and results with an error. */
module Wrappers {

  /** A cell that may be missing: pandas' NaN after a left merge or in a CSV column. */
  datatype Option<T> = None | Some(value: T)
  {
    function GetOr(default: T): T
    {
      match this
      case None => default
      case Some(v) => v
    }
  }

  /** The outcome of an operation that can raise. */
  datatype Result<T, E> = Success(value: T) | Failure(error: E)
  {
    predicate IsFailure()
    {
      Failure?
    }
  }
}
