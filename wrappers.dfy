/** Optional values and results with an error, used wherever the source returns
    `undefined`/`null` or throws. */
module Wrappers {

  datatype Option<+T> = None | Some(value: T) {
    function GetOr(default: T): T {
      match this
      case Some(v) => v
      case None => default
    }
  }

  datatype Result<+T, +E> = Ok(value: T) | Err(error: E)

  /** A JavaScript string value that is present and not empty, the strings
      that count as true in a condition. */
  predicate Truthy(s: Option<string>) {
    s.Some? && s.value != ""
  }
}
