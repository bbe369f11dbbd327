/** Option, Result and Fetch: the null/undefined values, thrown errors and
    failed service calls of the front end, as values. */
module Wrappers {

  datatype Option<+T> = None | Some(value: T) {
    function GetOr(default: T): T {
      match this
      case Some(v) => v
      case None => default
    }
  }

  datatype Result<+T, +E> = Ok(value: T) | Err(error: E)

  /** The outcome of an awaited call into a service that may throw
      (`await binanceUsers.getByUserId(...)` and the like). */
  datatype Fetch<+T> = Fetched(value: T) | FetchFailed
}
