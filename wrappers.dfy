/** Result and Option types for the commands' error returns and the optional values they read. */
module Wrappers {

  /** A command outcome: a value, or the error text the command hands back to its caller. */
  datatype Result<T> = Ok(value: T) | Err(error: string)

  /** An optional value (Rust's `Option`, a JavaScript value that may be absent). */
  datatype Option<T> = None | Some(value: T)

  function Min(a: int, b: int): int { if a <= b then a else b }

  function Max(a: int, b: int): int { if a <= b then b else a }
}
