/** Option, Bit and Result, shared by every component model. */
module Wrappers {
  datatype Option<+T> = None | Some(value: T)

  /**
   A two-valued field. Records with many flags use it in place of bool, which
   keeps the verifier from splitting on every flag a record carries.
   */
  datatype Bit = No | Yes

  function ToBit(b: bool): Bit {
    if b then Yes else No
  }

  datatype Result<+T, +E> = Ok(value: T) | Err(error: E)
}
