/** Optional values (JavaScript's `null` / `undefined` results and failed lookups) and query outcomes. */
module Wrappers {

  datatype Option<+T> = None | Some(value: T) {

    /** The wrapped value, or `default` when there is none. */
    function GetOr(default: T): T {
      match this
      case Some(v) => v
      case None => default
    }
  }

  /** What a query returned: an error, or rows (`null` when `data` is missing). */
  datatype FetchResult<T> = FetchError | Fetched(data: Option<seq<T>>)
}
