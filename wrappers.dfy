/** Optional values, as Rust's `Option`. */
module Wrappers {

  datatype Option<+T> = None | Some(value: T) {

    /** `unwrap_or(default)` / `unwrap_or_default()` with the default given. */
    function GetOr(default: T): T {
      match this
      case Some(v) => v
      case None => default
    }
  }
}
