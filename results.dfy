/** Value-or-error wrappers shared by the modules of this project: the
    Python `None`, a value-or-exception result, and a pass-or-exception
    outcome for operations that return nothing; and the no-duplicates
    predicate the ghost logs use. */
module Results {

  /** A Python value that may be `None`. */
  datatype Option<+T> = None | Some(value: T)

  /** A call that either returns `value` or raises `error`. */
  datatype Result<+T, +E> = Success(value: T) | Failure(error: E)

  /** A call that returns `None` or raises `error`. */
  datatype Outcome<+E> = Pass | Fail(error: E)

  /** No element occurs twice. */
  predicate NoDuplicates<T(==)>(s: seq<T>) {
    forall i, j :: 0 <= i < j < |s| ==> s[i] != s[j]
  }
}
