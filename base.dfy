/** Optional and failure-carrying values, and Python's truth value of an optional string. */
module Base {

  /** A Python value that may be `None`. */
  datatype Option<+T> = None | Some(value: T)

  /** The value of a call, or the exception it raised. */
  datatype Result<+T, +E> = Success(value: T) | Failure(error: E)

  /** Python's `bool(s)` for an optional string: present and non-empty. */
  predicate Truthy(s: Option<string>) {
    s.Some? && s.value != ""
  }

  /** Python's `a or b` on optional strings. */
  function Or(a: Option<string>, b: Option<string>): Option<string> {
    if Truthy(a) then a else b
  }
}
