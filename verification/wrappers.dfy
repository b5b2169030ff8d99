/** Optional values and results with an error, used for Python's `None` and exceptions. */
module Wrappers {

  datatype Option<+T> = None | Some(value: T)

  datatype Result<+R, +E> = Success(value: R) | Failure(error: E)

  /** Python truthiness of an optional string: `None` and `""` are both false. */
  predicate Present(o: Option<string>)
  {
    o.Some? && o.value != ""
  }

  /** Python's `a or b` on two optional strings. */
  function OrElse(a: Option<string>, b: Option<string>): Option<string>
  {
    if Present(a) then a else b
  }

  /** Python's `a or b` on two strings. */
  function StrOr(a: string, b: string): string
  {
    if a != "" then a else b
  }
}
