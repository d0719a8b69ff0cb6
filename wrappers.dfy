/** Failure-carrying values used across the model: `Option` for the source's
    `Option`, `Result` for its `anyhow::Result` / `tera::Result`. */
module Wrappers {

  datatype Option<+T> = None | Some(value: T) {
    function GetOr(default: T): T {
      match this
      case Some(v) => v
      case None => default
    }
  }

  datatype Result<+T, +E> = Ok(value: T) | Err(error: E)
}
