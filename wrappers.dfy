/** Optional values and results with an error, shared by every module of the model. */
module Wrappers {

  /** A value that may be absent: a missing JSON key, a failed upstream call. */
  datatype Option<+T> = None | Some(value: T)

  /** The outcome of an endpoint: a value, or the error it answers with instead. */
  datatype Result<+T, +E> = Success(value: T) | Failure(error: E)

  /** The list `[x]` for a present value and `[]` for an absent one. */
  function ToList<T>(o: Option<T>): (r: seq<T>)
    ensures |r| <= 1
    ensures o.None? <==> r == []
    ensures o.Some? ==> r[0] == o.value
  {
    match o
    case None => []
    case Some(x) => [x]
  }
}
