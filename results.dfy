/** Optional values and exception-or-value results, used in place of
    Python's `dict.get` defaults and raised exceptions. */
module Results {

  /** A present or absent value, as for an optional JSON key. */
  datatype Option<+T> = None | Some(value: T) {

    /** The value if present, otherwise `default` (Python's `dict.get(key, default)`). */
    function GetOr(default: T): T {
      match this
      case Some(v) => v
      case None => default
    }
  }

  /** Either a returned value or the exception that was raised instead. */
  datatype Result<+T, +E> = Success(value: T) | Failure(error: E)
}
