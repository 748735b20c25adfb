/** An optional value: the model's stand-in for Rust's Option and for
    environment lookups that may find nothing. */
module Opt {
  datatype Option<+T> = None | Some(value: T) {
    /** The value, or `default` when there is none (Rust's `unwrap_or`). */
    function GetOr(default: T): T {
      match this
      case Some(v) => v
      case None => default
    }
  }
}
