// Option and Result values, and the Python exceptions the core raises.
// A Python `raise` (or an exception raised by a runtime operation such as a
// division by zero or a missing attribute) is modelled as an `Err` result.

module Wrappers {

  datatype Option<T> = None | Some(value: T)
  {
    function GetOr(default: T): (r: T)
      ensures this.Some? ==> r == value
      ensures this.None? ==> r == default
    {
      match this
      case Some(v) => v
      case None => default
    }
  }

  /** The exception kinds raised on the modelled paths. */
  datatype PyError =
    | ValueError(reason: string)
    | ZeroDivisionError
    | AttributeError(attribute: string)
    | ValidationError(field: string)

  datatype Result<T> = Ok(value: T) | Err(error: PyError)
  {
    predicate IsFailure() { this.Err? }

    function PropagateFailure<U>(): Result<U>
      requires this.Err?
    {
      Err(error)
    }

    function Extract(): T
      requires this.Ok?
    {
      value
    }
  }
}
