/**
 * Absent values and raised errors, as plain data. Python's `None` becomes
 * `None`, and an operation that may raise returns `Err` instead.
 */
module Optional {

  datatype Option<T> = None | Some(value: T)

  /** `o`'s value, or `fallback` when there is none: the second argument of `dict.get`. */
  function ValueOr<T>(o: Option<T>, fallback: T): (v: T)
    ensures o.Some? ==> v == o.value
    ensures o.None? ==> v == fallback
  {
    if o.Some? then o.value else fallback
  }

  datatype Result<T, E> = Ok(value: T) | Err(error: E)
}
