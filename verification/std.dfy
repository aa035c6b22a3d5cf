/** Failure-carrying wrappers used by every entry point: the model's
    counterpart of the host library's `StdResult` and `StdError`.
    Error texts are not modelled; only the kind of failure is kept. */
module Std {

  datatype Option<+T> = None | Some(value: T)

  /** The kinds of failure the modelled code can produce or propagate. */
  datatype StdError =
    | GenericErr   // the explicit rejection raised by Lock on bad funds
    | NotFound     // a strict load of a key that holds nothing
    | ParseErr     // a stored value that does not decode as the expected type
    | StorageErr   // a save the host store refused
    | ApiErr       // a failure reported by the host's address service

  datatype StdResult<+T> = Ok(value: T) | Err(error: StdError) {
    predicate IsFailure() { Err? }

    function PropagateFailure<U>(): StdResult<U>
      requires Err?
    {
      Err(error)
    }

    function Extract(): T
      requires Ok?
    {
      value
    }
  }
}
