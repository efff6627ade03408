/** Optional values, and Python's truth test on an optional string. */
module Options {

  datatype Option<+T> = None | Some(value: T) {
    function GetOr(default: T): T {
      match this
      case Some(v) => v
      case None => default
    }
  }

  /** `if key:` on an optional string: None and the empty string are falsy. */
  predicate Present(s: Option<string>) {
    s.Some? && s.value != ""
  }
}
