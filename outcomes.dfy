/** Option and Result types, and the Python exceptions the modelled code can raise. */
module Outcomes {

  datatype Option<+T> = None | Some(value: T)

  /** The exception classes raised by the modelled code.  The message text of an
      exception is kept only where the source gives one that callers see. */
  datatype Exc =
    | TypeError
    | KeyError
    | AttributeError
    | ValueError
    | OSError
    | ResourceWarning
    | RuntimeError(msg: string)
    | GenericException(msg: string)

  /** A value, or the exception that the Python code raises instead of returning. */
  datatype Result<+T> = Ok(value: T) | Err(error: Exc) {
    predicate IsFailure() { Err? }
    function PropagateFailure<U>(): Result<U> requires Err? { Err(error) }
    function Extract(): T requires Ok? { value }
  }

  /** Normal completion of a procedure that returns nothing, or the exception it raises. */
  datatype Outcome = Done | Raised(error: Exc) {
    predicate IsFailure() { Raised? }
    function PropagateFailure(): Outcome requires Raised? { this }
  }
}
