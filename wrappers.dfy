/** The two wrappers the model uses: `Option` for JavaScript's `null` and
    `undefined`, `Result` for a value or the error that would be thrown. */
module Wrappers {
  datatype Option<+T> = None | Some(value: T)

  datatype Result<+T, +E> = Ok(value: T) | Err(error: E)
}
