/** Optional values (the source's nullable references) and results (its exceptions). */
module Wrappers {

  /** A nullable value: `None` is the source's `null`. */
  datatype Option<+T> = None | Some(value: T)

  /** The outcome of an operation that may throw: `Err` carries what was thrown. */
  datatype Result<+T, +E> = Ok(value: T) | Err(error: E)

  /**
   * The outcome of deserialising a JSON text into a `T`: not JSON of that shape (the
   * deserialiser throws), the literal `null`, or a value.
   */
  datatype Json<+T> = Malformed | JsonNull | Parsed(value: T)
}
