/** Failure-aware result types used across the model. */
module Wrappers {

  /** A Java reference that may be null. */
  datatype Option<+T> = None | Some(value: T)

  /** A call that either returns a value or throws. */
  datatype Result<+T, +E> = Ok(value: T) | Err(error: E)

  /** A call that returns nothing or throws. */
  datatype Outcome<+E> = Pass | Fail(error: E)

  /** What a validator does with the error list it built: return normally, or
      throw a ValidationException carrying the list. */
  datatype Verdict<+E> = Accepted | Rejected(errors: seq<E>) {
    function Errors(): seq<E> {
      if Accepted? then [] else errors
    }
  }

  /** The errors appear in the order their checks run: `rank` strictly
      increases along the list. */
  predicate InRankOrder<E>(es: seq<E>, rank: E -> nat) {
    forall i, j :: 0 <= i < j < |es| ==> rank(es[i]) < rank(es[j])
  }

  /** Every error comes from a check ranked before `k`. */
  predicate RanksBelow<E(==,!new)>(es: seq<E>, rank: E -> nat, k: nat) {
    forall e :: e in es ==> rank(e) < k
  }

  /** `errors.add(e)` after the checks ranked before `e`: the list stays in
      check order and gains exactly `e`. */
  function Append<E(==,!new)>(es: seq<E>, e: E, rank: E -> nat): (r: seq<E>)
    requires InRankOrder(es, rank) && RanksBelow(es, rank, rank(e))
    ensures InRankOrder(r, rank) && RanksBelow(r, rank, rank(e) + 1)
    ensures forall x :: x in r <==> x in es || x == e
  {
    es + [e]
  }
}
