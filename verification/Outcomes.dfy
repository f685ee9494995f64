/** Result types shared by the models: the source's `None`, and its raised errors. */
module Outcomes {

  datatype Option<+T> = None | Some(value: T)

  /** The error codes the modelled code raises; `ValueError` is Python's own. */
  datatype ErrorCode =
    | AlreadyExists
    | AuthRequired
    | AuthzDenied
    | Backpressure
    | Conflict
    | InternalError
    | InvalidArgument
    | InvalidStateTransition
    | NotFound
    | PolicyDenied
    | RateLimited
    | ValueError

  datatype Result<+T> = Ok(value: T) | Err(code: ErrorCode) {

    predicate IsFailure() {
      Err?
    }

    function PropagateFailure<U>(): Result<U>
      requires Err?
    {
      Err(code)
    }

    function Extract(): T
      requires Ok?
    {
      value
    }
  }
}
