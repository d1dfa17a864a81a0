/** Results shared by every module: an optional value, and a value or the kind of error returned in its place. */
module Outcomes {

  datatype Option<+T> = None | Some(value: T)

  /** Error kinds the callers tell apart: a done context, a missing object, a refused argument,
      and everything that goes wrong underneath (I/O, decryption, decoding). */
  datatype Fault = Cancelled | NotFound(hash: string) | Rejected | Broken

  datatype Result<+T> = Ok(value: T) | Err(fault: Fault)
}
