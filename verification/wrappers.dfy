/** Option and Result, the two failure-carrying shapes the controllers use
    for absent request fields and for their error responses. */
module Wrappers {

  datatype Option<+T> = None | Some(value: T)

  /** A string field of a JSON body is truthy when present and not empty. */
  predicate Present(s: Option<string>)
  {
    s.Some? && s.value != ""
  }

  /** A numeric field is truthy when present and not zero. */
  predicate NonZero(a: Option<int>)
  {
    a.Some? && a.value != 0
  }

  datatype Result<+R, +E> = Success(value: R) | Failure(error: E) {

    /** The success value; only meaningful when the call succeeded. */
    function Extract(): R
      requires Success?
    {
      value
    }
  }
}
