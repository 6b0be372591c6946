/** Option and Result, the two wrappers the Rust code returns from lookups and fallible calls. */
module Wrappers {

  datatype Option<+T> = None | Some(value: T)

  datatype Result<+T, +E> = Ok(value: T) | Err(error: E)
}
