/** Failure-carrying datatypes shared by every stage of the derive macro. */
module Results {

  /** A value that may be absent; Rust's `Option`. */
  datatype Option<+T> = None | Some(value: T)

  /** The outcome of a fallible step; Rust's `Result`. */
  datatype Result<+T, +E> = Ok(value: T) | Err(error: E)
}
