/** Option and Result wrappers, and the JavaScript truthiness of optional strings. */
module Common {

  /** A value that may be missing (`undefined` or `null` in the page code). */
  datatype Option<+T> = None | Some(value: T)

  /** Either a value or an error. */
  datatype Result<+T, +E> = Ok(value: T) | Err(error: E)

  /** A JavaScript string that is truthy: present and not the empty string. */
  predicate Truthy(s: Option<string>)
  {
    s.Some? && s.value != ""
  }

  function Min(a: int, b: int): int
  {
    if a <= b then a else b
  }
}
