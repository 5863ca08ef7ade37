/** Optional values, and the exceptions of the original as error results. */
module Wrappers {

  datatype Option<+T> = None | Some(value: T)

  /** The exception classes the store and the control plane raise. */
  datatype Error =
    | Conflict
    | NotFound
    | BudgetExceeded
    | LeaseUnavailable
    | Invalid
    | ReplayDetected
    | Integrity
    | Mismatch

  datatype Result<+T> = Ok(value: T) | Err(error: Error) {
    predicate IsFailure() { Err? }

    function PropagateFailure<U>(): Result<U>
      requires Err?
    {
      Err(error)
    }

    function Extract(): T
      requires Ok?
    {
      value
    }
  }
}
