/** Small shared vocabulary: optional values and results that carry an error text. */
module Basics {
  /** A value that may be absent (Python's `None`). */
  datatype Option<+T> = None | Some(value: T)

  /** The outcome of a step that can raise: `Err` carries the exception's text, `str(e)`. */
  datatype Result<+T> = Ok(value: T) | Err(error: string)

  function Min(a: int, b: int): int { if a <= b then a else b }
}
