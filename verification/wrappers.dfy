/** Optional values and the outcome of a Python call that may raise.

    `Option` stands for Python's `None`-or-value returns. `Result` stands for
    a call that either returns a value or lets an exception escape to its
    caller (a `KeyError`, `TypeError`, `AttributeError` or `ValueError` that
    nothing on the way catches). The model never needs to tell exception
    classes apart, so `Raised` carries no payload. */
module Wrappers {

  datatype Option<+T> = None | Some(value: T) {

    predicate IsFailure() {
      None?
    }

    function PropagateFailure<U>(): Option<U>
      requires None?
    {
      None
    }

    function Extract(): T
      requires Some?
    {
      value
    }

    /** Returns the value held in Some, or `default` for None. */
    function GetOr(default: T): T {
      match this
      case Some(v) => v
      case None => default
    }
  }

  datatype Result<+T> = Ok(value: T) | Raised {

    predicate IsFailure() {
      Raised?
    }

    function PropagateFailure<U>(): Result<U>
      requires Raised?
    {
      Raised
    }

    function Extract(): T
      requires Ok?
    {
      value
    }
  }
}
