/** The failures the components raise (the exception classes of the source and the errors reported through Lox.Error). */
module Exceptions {
  import opened Tokens

  /** Why an operation did not produce a value. */
  datatype Failure =
      /** A Lox runtime error: the offending token and a message (RuntimeError.cs). */
    | RuntimeError(token: Token, message: string)
      /** A .NET exception that is not a RuntimeError (a missing or duplicate dictionary
          key, a null dereference, a `Return` escaping to the top level): nothing in the
          interpreter catches it. */
    | HostFault(reason: string)
      /** The evaluation step budget ran out (the model's stand-in for non-termination). */
    | OutOfFuel

  datatype Result<+T> = Ok(value: T) | Err(failure: Failure)

  /** A static error reported through `Lox.Error(token, message)`. */
  datatype StaticError = StaticError(token: Token, message: string)

  /** A scanning error reported through `Lox.Error(line, message)`. */
  datatype ScanError = ScanError(line: int, message: string)
}
