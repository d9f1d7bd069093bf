/** Optional values and the outcome of a call that either returns or raises. */
module Results {

  /** A value that may be absent (Python's `None`). */
  datatype Option<+T> = None | Some(value: T)

  /** The outcome of a wrapped unit of work: it returned a value or raised an exception. */
  datatype Result<+T, +E> = Ok(value: T) | Err(error: E)

  /** Python's `dict.get(key, default)` on a string-keyed dictionary. */
  function Get(m: map<string, string>, key: string, default: string): string
  {
    if key in m then m[key] else default
  }
}
