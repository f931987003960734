/**
 * The exception taxonomy of the driver (PEP 249 error classes plus the
 * Firebolt-specific ones), and the Option/Result/Outcome wrappers that model
 * "returns normally" versus "raises".
 *
 * Errors carry a structured reason instead of the message text the source
 * formats; the reason names which check failed and with which counts.
 */
module Errors {

  datatype Option<+T> = None | Some(value: T)

  /** Why a `DataError` was raised. */
  datatype DataReason =
    | InvalidTypename                       // parse_type given a non-string
    | InvalidDateValue                      // parse_value: date column, non-string value
    | InvalidDatetimeValue                  // parse_value: datetime column, non-string value
    | UnsupportedParameterType              // format_value: value of no supported kind
    | NotEnoughParameters(given: nat)       // format_statement: a placeholder found no value
    | TooManyParameters(given: nat, used: nat) // format_statement: values left over
    | InvalidQueryDataFormat                // response body without rows/meta/data
    | NoRowsToFetch                         // fetch on a result set without rows

  /** Why an `InterfaceError` was raised by the connection factory. */
  datatype InterfaceReason =
    | BothEngineNameAndUrl
    | NeitherEngineNameNorUrl
    | MissingArgument(name: string)

  datatype Error =
    | DataError(reason: DataReason)
    | NotSupportedError
    | InterfaceError(interfaceReason: InterfaceReason)
    | OperationalError(body: string)
    | ProgrammingError(message: string)
    | FireboltDatabaseError(database: string)
    | EngineNotRunningError(engineUrl: string)
    | HttpStatusError(status: int)          // httpx raise_for_status
    | CursorClosedError
    | QueryNotRunError
    | ConnectionClosedError
    | PyTypeError                           // Python TypeError
    | PyValueError                          // Python ValueError
    | PyAssertionError                      // a failing `assert` in the source
    | NetworkError                          // whatever the transport or a probe raises

  /** A value or the exception raised instead of it. */
  datatype Result<+T> = Ok(value: T) | Err(error: Error) {
    predicate IsFailure() { Err? }

    function PropagateFailure<U>(): Result<U>
      requires Err?
    {
      Err(error)
    }

    function Extract(): T
      requires Ok?
    {
      value
    }
  }

  /** Normal return without a value, or the exception raised. */
  datatype Outcome = Pass | Fail(error: Error)
}
