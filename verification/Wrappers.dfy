/** The optional value used where the source returns None, nil or an absent Redis field. */
module Wrappers {
  datatype Option<+T> = None | Some(value: T) {
    function GetOr(default: T): T {
      match this
      case Some(v) => v
      case None => default
    }
  }

  /** What an awaited operation comes to: a value, or an exception that propagates. */
  datatype Outcome<+T> = Raised | Value(value: T) {
    predicate IsFailure() { Raised? }

    function PropagateFailure<U>(): Outcome<U>
      requires Raised?
    {
      Raised
    }

    function Extract(): T
      requires Value?
    {
      value
    }
  }
}
