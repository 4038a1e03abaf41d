/** Optional values and the outcome of an upstream request. */
module Wrappers {

  /** A JSON field that may be null or undefined. */
  datatype Option<+T> = None | Some(value: T) {

    /** JavaScript's nullish fallback: the value when present (0 included),
        otherwise `default`. */
    function GetOr(default: T): (r: T)
      ensures Some? ==> r == value
      ensures None? ==> r == default
    {
      match this
      case Some(v) => v
      case None => default
    }
  }

  /** The outcome of a request whose body is parsed as JSON: either it threw
      (network error, body that is not JSON) or it produced a JSON body. */
  datatype Fetch<+T> = FetchFailed | Fetched(body: T)
}
