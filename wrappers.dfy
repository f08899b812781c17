/** Failure-compatible wrappers shared by the data model and the engine. */
module Wrappers {

  /** An optional value: the outcome of a lookup or of a checked operation. */
  datatype Option<+T> = None | Some(value: T)

  /** A value or an error, as a fallible operation of the ledger returns it. */
  datatype Result<+T, +E> = Ok(value: T) | Err(error: E)
}
