/** Optional values, value-or-error results and a list predicate used throughout the model. */
module Wrappers {

  /** Python's `Optional[T]`: `None` or a value. */
  datatype Option<+T> = None | Some(value: T) {
    function GetOr(default: T): T {
      match this
      case Some(v) => v
      case None => default
    }
  }

  /** A value or an error, e.g. a parsed section or the `ValidationError` listing what failed. */
  datatype Result<+R, +E> = Success(value: R) | Failure(error: E)

  /** The Python exceptions that can escape an operation (the HTTP layer turns them into a system error). */
  datatype PyException =
    | IndexError          // a list index past the end
    | KeyError(key: string)
    | ValueError(message: string)
    | AttributeError      // a method called on `None`

  /** No element occurs twice. */
  predicate NoDuplicates<T(==)>(s: seq<T>)
  {
    forall i, j :: 0 <= i < j < |s| ==> s[i] != s[j]
  }
}
