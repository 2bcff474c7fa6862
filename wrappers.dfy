/** Failure-compatible wrappers shared by every module of the model. */
module Wrappers {

  /** A value that may be absent (Rust's `Option`). */
  datatype Option<+T> = None | Some(value: T)

  /** A value or an error (Rust's `Result`). */
  datatype Result<+T, +E> = Ok(value: T) | Err(error: E)
}

/** Identifiers generated by `Uuid::new_v4` and stored in the database. */
module Ids {

  /** The 128 bits of a UUID, read as a number. */
  type Uuid = nat
}
