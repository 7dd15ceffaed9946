/** Option and Result values used where the source returns `null`/`undefined` or reports an error. */
module Wrappers {

  datatype Option<+T> = None | Some(value: T)

  datatype Result<+T, +E> = Ok(value: T) | Err(error: E)

  /** Two successes of the same result carry the same value. */
  lemma OkInjective<T, E>(r: Result<T, E>, a: T, b: T)
    requires r == Ok(a) && r == Ok(b)
    ensures a == b
  {
  }
}
