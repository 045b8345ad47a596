/**
 * `RetryPolicy`: how often a failing message is tried before it is given up.
 * Both the outbox dispatcher and the idempotent consumer consult it.
 */
module RetryPolicy {
  import opened Common

  datatype FailureKind = Transient | Poison

  datatype Decision = RetryAfter | ToDeadLetter

  /** The delay of `RetryAfter` is chosen by the backoff strategy and stays arbitrary here. */
  function Decide(maxAttempts: nat, attempt: nat): Decision {
    if attempt < maxAttempts then RetryAfter else ToDeadLetter
  }

  function DecideFor(maxAttempts: nat, attempt: nat, failure: FailureKind): Decision {
    match failure
    case Poison => ToDeadLetter
    case Transient => Decide(maxAttempts, attempt)
  }

  /** The first attempt is always made. */
  function Budget(maxAttempts: nat): nat {
    Max(1, maxAttempts)
  }
}
