/** Outcomes of running a step, the cooperative cancellation signal, and the
    usual Option/Result wrappers used for the error paths of the engine. */
module Outcomes {

  /** How a step ends: normally, with a deployment failure (an exception
      thrown by an operation or by the load balancer), or with the
      distinguished "run cancelled" condition. */
  datatype Outcome = Ok | Failed | Cancelled

  /** The cancellation signal, seen from the run: check points are numbered
      0, 1, 2, ... in the order in which the run reaches them, and a token
      that is cancelled from check point `from` on makes that check point and
      every later one throw. Cancellation is never withdrawn. */
  datatype CancellationToken = NeverCancelled | CancelledFrom(from: nat) {
    predicate IsCancellationRequested(check: nat) {
      CancelledFrom? && from <= check
    }
  }

  datatype Option<+T> = None | Some(value: T)

  datatype Result<+T, +E> = Success(value: T) | Failure(error: E)

  /** Concatenation regrouped; stated once so that long proofs about
      timelines do not have to rediscover it. */
  lemma ConcatAssoc<T>(a: seq<T>, b: seq<T>, c: seq<T>)
    ensures a + (b + c) == a + b + c
  {
  }
}
