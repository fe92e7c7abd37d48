/** Failure-aware values: a Python exception that ends the run becomes a Failure. */
module Wrappers {

  datatype Option<+T> = None | Some(value: T)

  datatype Result<+T, +E> = Success(value: T) | Failure(error: E)

  /** The list `prefix` followed by the list that `r` carries, or the failure of `r`. */
  function Prepend<T, E>(prefix: seq<T>, r: Result<seq<T>, E>): (p: Result<seq<T>, E>)
    ensures p.Failure? <==> r.Failure?
    ensures r.Failure? ==> p.error == r.error
    ensures r.Success? ==> |p.value| == |prefix| + |r.value| && p.value[..|prefix|] == prefix
  {
    match r
    case Failure(e) => Failure(e)
    case Success(s) => Success(prefix + s)
  }

  /** Prepending twice is prepending the concatenation. */
  lemma PrependTwice<T, E>(a: seq<T>, b: seq<T>, r: Result<seq<T>, E>)
    ensures Prepend(a, Prepend(b, r)) == Prepend(a + b, r)
  {
    if r.Success? {
      assert a + (b + r.value) == (a + b) + r.value;
    }
  }
}
