/** The optional-value type the rest of the model uses for Rust's `Option`. */
module Wrappers {

  /** `None` or `Some(value)`, as Rust's `Option<T>`. */
  datatype Option<+T> = None | Some(value: T) {

    /** The wrapped value, or `default` when there is none (Rust's `unwrap_or`). */
    function GetOr(default: T): T {
      match this
      case Some(v) => v
      case None => default
    }
  }
}
