/** Failure-compatible results, used for the source's error returns. */
module Wrappers {

  datatype Option<+T> = None | Some(value: T)

  /** A Go function that returns (value, error). */
  datatype Result<+T> = Ok(value: T) | Err

  /** No element occurs twice. */
  ghost predicate NoDup<T>(s: seq<T>) {
    forall i, j | 0 <= i < j < |s| :: s[i] != s[j]
  }
}
