/** Option and Result as used by the other modules. */
module Outcomes {
  datatype Option<+T> = None | Some(value: T)

  datatype Result<+T> = Ok(value: T) | Err(error: Error)

  // The exceptions of the C++ number parser and of `substr`.
  datatype Error = InvalidNumber | NumberOutOfRange | PositionOutOfRange
}
