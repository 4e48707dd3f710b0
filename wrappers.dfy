/** Option and Result values shared by every module of the ledger model. */
module Wrappers {

  /** A value that may be absent: JavaScript's `undefined` / `null` against a present value. */
  datatype Option<+T> = None | Some(value: T)

  /** The outcome of an operation that can fail (a rejected promise or a thrown error). */
  datatype Result<+R, +E> = Success(value: R) | Failure(error: E)

  /** JavaScript truthiness of an optional string: present and not empty. */
  predicate Present(s: Option<string>)
  {
    s.Some? && s.value != ""
  }

  /** `x || ''` for an optional string. */
  function OrEmpty(s: Option<string>): string
  {
    if s.Some? then s.value else ""
  }
}
