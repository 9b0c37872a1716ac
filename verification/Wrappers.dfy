/** Option and Result, the failure carriers shared by every module of the model. */
module Wrappers {

  datatype Option<+T> = None | Some(value: T)

  /** Success, or the error the source raises. */
  datatype Result<+T, +E> = Success(value: T) | Failure(error: E)

  /** An element of a non-empty set. */
  lemma Pick<T>(s: set<T>) returns (x: T)
    requires s != {}
    ensures x in s
  {
    assert (forall y :: y !in s) ==> s == {};
    x :| x in s;
  }
}
