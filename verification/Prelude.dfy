/** Vocabulary shared by every other module. */
module Prelude {
  datatype Option<+T> = None | Some(value: T) {
    function GetOr(default: T): T {
      match this
      case Some(v) => v
      case None => default
    }
  }

  datatype Result<+T, +E> = Ok(value: T) | Err(error: E)

  /** Text is bytes: every limit in the program is a limit on bytes. */
  type Byte = b: int | 0 <= b < 256
  type Bytes = seq<Byte>

  /** One monotone clock, read by every process. */
  type Time = int
  type Duration = int

  /** Durations count nanoseconds. */
  const SECOND: Duration := 1_000_000_000
  const MINUTE: Duration := 60 * SECOND

  function Max(a: int, b: int): int { if a < b then b else a }

  function Min(a: int, b: int): int { if a < b then a else b }
}
