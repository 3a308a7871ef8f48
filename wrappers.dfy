/** Option and Result, plus the two shapes a JavaScript call can take here:
    a synchronous call returns or throws, and a promise settles by resolving or rejecting. */
module Wrappers {

  datatype Option<+T> = None | Some(value: T) {
    function GetOr(default: T): T {
      match this
      case Some(v) => v
      case None => default
    }

    /** `this ?? other` between two optional values. */
    function OrElse(other: Option<T>): (r: Option<T>)
      ensures Some? ==> r == this
      ensures None? ==> r == other
    {
      if Some? then this else other
    }
  }

  datatype Result<+T, +E> = Success(value: T) | Failure(error: E)

  /** A thrown or rejected JavaScript value; only its message is observed. */
  datatype Error = Error(message: string)

  /** Outcome of a synchronous JavaScript call: it returned a value or threw. */
  datatype Sync<+T> = Value(value: T) | Raised(error: Error)

  /** Outcome of a promise once it has settled. */
  datatype Settled<+T> = Resolved(value: T) | Rejected(error: Error)

  /** The SDK's APIPromise: how it settles, and whether it offers the `_thenUnwrap` transform. */
  datatype APIPromise<+T> = APIPromise(outcome: Settled<T>, hasThenUnwrap: bool)
}
