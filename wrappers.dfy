/** Failure-compatible wrappers: an absent value (JavaScript's `undefined`) and a tagged result. */
module Wrappers {

  /** `None` models a JavaScript `undefined`. */
  datatype Option<+T> = None | Some(value: T)

  /** The `Ok`/`Err` result the source returns instead of throwing. */
  datatype Result<+T, +E> = Ok(value: T) | Err(error: E)
}
