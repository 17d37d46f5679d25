/** Failure-carrying datatypes shared by every module: Python's `None` and Python's exceptions. */
module Wrappers {

  /** Python's Optional: a missing dictionary entry, a `None` return, a pandas NaN. */
  datatype Option<+T> = None | Some(value: T)
  {
    function GetOr(default: T): T
    {
      match this
      case Some(v) => v
      case None => default
    }
  }

  /** The Python exception classes the modelled code raises or lets escape. */
  datatype Error =
    | ValueError(msg: string)
    | KeyError(key: string)
    | IndexError
    | AttributeError(name: string)
    | TypeError(msg: string)
    | ZeroDivisionError
    | TransportError(msg: string)

  /** A value or the exception that interrupted its computation. */
  datatype Result<+T> = Ok(value: T) | Err(error: Error)
  {
    predicate IsFailure() { Err? }

    function PropagateFailure<U>(): Result<U>
      requires Err?
    {
      Err(error)
    }

    function Extract(): T
      requires Ok?
    {
      value
    }
  }
}
