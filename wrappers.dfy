/** Option and Result wrappers, and the exceptions the ledger raises. */
module Wrappers {

  datatype Option<+T> = None | Some(value: T)

  /** The exceptions that escape the ledger's operations. In the source a
      ParseError is a subclass of TymeError; ValueError comes from datetime
      parsing, StopIteration from reading past the end of the lines, and
      RuntimeError from a StopIteration raised inside a section generator. */
  datatype Error =
    | TymeError(msg: string)
    | ParseError(msg: string)
    | ValueError(msg: string)
    | StopIteration
    | RuntimeError(msg: string)

  datatype Result<+T> = Ok(value: T) | Err(error: Error)

  /** The result of an operation that returns nothing or raises. */
  datatype Outcome = Pass | Fail(error: Error)
}
