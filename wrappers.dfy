/** Failure-compatible wrappers for the operations that raise in the source. */
module Wrappers {

  datatype Option<+T> = None | Some(value: T)

  datatype Result<+R, +E> = Success(value: R) | Failure(error: E)

  /** The outcome of an operation that returns nothing but may raise. */
  datatype Outcome<+E> = Pass | Fail(error: E)
}

/** The exceptions the modelled operations raise, one constructor per kind. */
module Errors {

  datatype Error =
    | InvalidValue(message: string)      // ValueError from check_value
    | MalformedPart(message: string)     // ValueError from a part parser
    | NotImplemented(operation: string)  // NotImplementedError
    | ArgumentMismatch(operation: string) // a call with more arguments than the callee takes
}
