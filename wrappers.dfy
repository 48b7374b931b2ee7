/** Failure-carrying values shared by the whole model.

    The application is written in Python, where a missing value is `None` and a
    failure is an exception. `Option` stands for the first, `Result` for an
    operation that either returns a value or raises, with `Error` naming the
    exception class the interpreter would raise.
 */
module Wrappers {

  datatype Option<+T> = None | Some(value: T)

  /** The exceptions the modelled code can raise. */
  datatype Error =
    | KeyError(key: string)         // subscript of a dict with a missing key
    | TypeError(reason: string)     // subscript of a non-dict, os.path.join of a non-string
    | AttributeError(reason: string) // attribute access on None
    | ValueError(reason: string)    // int() of a malformed string, list.index of a missing value
    | ZeroDivisionError(reason: string) // `//` or `/` by zero
    | IndexError                    // subscript past the end of a list
    | IntegrityError(reason: string) // a save that breaks a unique column
    | Exception(message: string)    // a plain Exception, or anything the engine raises

  /** `//` of an integer by zero. */
  const IntDivisionByZero := ZeroDivisionError("integer division or modulo by zero")

  /** `/` of a number by the float zero. */
  const FloatDivisionByZero := ZeroDivisionError("float division by zero")

  /** `str(exception)`, the text stored as the message of a FAILED status. */
  function Describe(e: Error): string
  {
    match e
    case KeyError(k) => "'" + k + "'"
    case TypeError(r) => r
    case AttributeError(r) => r
    case ValueError(r) => r
    case ZeroDivisionError(r) => r
    case IndexError => "list index out of range"
    case IntegrityError(r) => r
    case Exception(m) => m
  }

  datatype Result<+T> = Ok(value: T) | Err(error: Error) {
    predicate IsFailure() { Err? }

    function PropagateFailure<U>(): Result<U>
      requires Err?
    {
      Err(error)
    }

    function Extract(): T
      requires Ok?
    {
      value
    }
  }
}
