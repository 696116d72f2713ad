/**
 * Python's exceptions as values: a `Fault` names the exception class the
 * source raises and carries its message; operations that may raise return a
 * `Result`.
 */
module Outcomes {

  datatype Option<+T> = None | Some(value: T)

  /** The exception classes the core raises or lets escape. */
  datatype FaultKind =
    | GenomicIntervalError
    | BEDLineError
    | ValueError
    | TypeError
    | IndexError
    | ZeroDivisionError
    | OverflowError

  datatype Fault = Fault(kind: FaultKind, message: string)

  datatype Result<+T> = Ok(value: T) | Err(fault: Fault)

  /** `type(error).__name__`. */
  function KindName(k: FaultKind): string {
    match k
    case GenomicIntervalError => "GenomicIntervalError"
    case BEDLineError => "BEDLineError"
    case ValueError => "ValueError"
    case TypeError => "TypeError"
    case IndexError => "IndexError"
    case ZeroDivisionError => "ZeroDivisionError"
    case OverflowError => "OverflowError"
  }
}
