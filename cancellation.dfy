/**
 * The `CancellationToken` a scheduled trim is handed.  Cancellation comes
 * from the host at a moment the model does not know: the token answers
 * "not cancelled" to its first `budget` questions and "cancelled" to every
 * later one.
 */
module Cancellation {
  class CancellationToken {
    /** How many checks see the token not yet cancelled. */
    const budget: nat
    /** How many checks have been made. */
    var checks: nat

    constructor (budget: nat)
      ensures this.budget == budget && checks == 0
    {
      this.budget := budget;
      checks := 0;
    }

    /** Whether the token answers "cancelled" to the check numbered `n`. */
    predicate CancelledAt(n: nat)
    {
      n >= budget
    }

    /** `IsCancellationRequested` */
    method IsCancellationRequested() returns (b: bool)
      modifies this
      ensures checks == old(checks) + 1
      ensures b == CancelledAt(old(checks))
    {
      b := checks >= budget;
      checks := checks + 1;
    }
  }
}
