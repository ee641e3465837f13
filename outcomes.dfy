/** Error reporting shared by every module: the Python exceptions the modelled code raises,
    and a failure-compatible Result so that `:-` propagates them. */
module Outcomes {

  /** The exception classes raised by the modelled code (UnboundLocalError is a NameError). */
  datatype Error =
    | ValueError
    | TypeError
    | KeyError
    | IndexError
    | RuntimeError
    | NameError
    | AttributeError
    | NotImplementedError

  datatype Result<+T> = Ok(value: T) | Err(error: Error) {
    predicate IsFailure() { Err? }

    function PropagateFailure<U>(): Result<U>
      requires Err?
    {
      Err(error)
    }

    function Extract(): T
      requires Ok?
    {
      value
    }
  }

  datatype Option<+T> = None | Some(value: T)
}
