/** Option and Result, the two wrappers the model uses for JavaScript's
    `undefined`/`null` and for a value-or-thrown-error outcome. */
module Results {

  datatype Option<+T> = None | Some(value: T)

  datatype Result<+T, +E> = Ok(value: T) | Err(error: E)
}
