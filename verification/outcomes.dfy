/** Shared value types: the outcome of a call into a foreign engine, optional values and bytes. */
module Outcomes {

  /** The result of one call into code the model cannot see: it returned a value or it raised. */
  datatype Outcome<+T> = Ok(value: T) | Fail

  /** Python's `None` next to a value. */
  datatype Option<+T> = None | Some(value: T)

  newtype byte = x: int | 0 <= x < 256

  type Bytes = seq<byte>
}
