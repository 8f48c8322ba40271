/** Optional values and fallible results, as the modelled Python code uses `None` and exceptions. */
module Wrappers {

  /** `Optional[T]`: `None` or a value. */
  datatype Option<+T> = None | Some(value: T)

  /** The outcome of a Python call that either returns a value or raises. */
  datatype Result<+R, +E> = Success(value: R) | Failure(error: E)

  /** Python truthiness of an `Optional[str]`: present and non-empty. */
  predicate IsTruthy(s: Option<string>) {
    s.Some? && s.value != ""
  }
}
