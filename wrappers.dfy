/** Option and Result, the two failure-carrying values every layer of the provider returns. */
module Wrappers {

  /** A Go pointer that may be nil, or a Go `error` that may be nil. */
  datatype Option<+T> = None | Some(value: T)

  /** A Go `(value, error)` pair in which exactly one side is meaningful. */
  datatype Result<+T, +E> = Success(value: T) | Failure(error: E)

  /** The error half of a result, as a Go caller that discards the value sees it. */
  function ErrorOf<T, E>(r: Result<T, E>): (e: Option<E>)
    ensures e.None? <==> r.Success?
    ensures r.Failure? ==> e == Some(r.error)
  {
    match r
    case Success(_) => None
    case Failure(err) => Some(err)
  }
}
