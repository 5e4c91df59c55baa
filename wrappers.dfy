/** Option and Result types shared by every module: the Rust `Option<T>` and
  * `Result<T, String>` that the modelled functions return. */
module Wrappers {
  datatype Option<T> = None | Some(value: T)

  /** A Rust `Result<T, String>`: the error side carries the message text. */
  datatype Result<T> = Ok(value: T) | Err(msg: string)
}
