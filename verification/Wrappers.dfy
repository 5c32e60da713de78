/** The wrappers the other modules share. */
module Wrappers {
  datatype Option<+T> = None | Some(value: T)

  datatype Result<+T, +E> = Ok(value: T) | Err(error: E)

  /** What a decoder does: it reads a value, refuses the input, or indexes out of range and panics. */
  datatype Reading<+T> = Done(value: T) | Refused | Panics
}
