/** Small vocabulary shared by every module. */
module Prelude {

  datatype Option<+T> = None | Some(value: T)

  /** `Err` carries the message of the exception the program raises. */
  datatype Result<+T> = Ok(value: T) | Err(error: string)

  datatype Unit = Unit

  /** Python's `int(x)` on a float: truncation toward zero. */
  function Trunc(x: real): int {
    if x >= 0.0 then x.Floor else -((-x).Floor)
  }

  function Max(a: int, b: int): int { if a >= b then a else b }

  function Min(a: int, b: int): int { if a <= b then a else b }

  /** The outcome of one remote call: carried out and acknowledged, carried out
      with the reply lost, or never carried out. The caller sees an exception in
      the last two cases and cannot tell them apart. */
  datatype Net = Acked | Unacked | Dropped
}
