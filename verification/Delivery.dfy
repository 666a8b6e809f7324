/** The failure taxonomy that forwarding and broadcasts share
    (backend/app/services/delivery.py, backend/app/services/broadcast.py). */
module Delivery {
  import opened Types
  import opened Leases

  /** Deployment settings; nothing below depends on the default values. */
  datatype Settings = Settings(
    perConnectionInflight: nat,
    broadcastInflight: nat,
    maxAttempts: nat,
    floodPause: Time,
    leaseTime: Time)

  const DEFAULT_WAIT: nat := 60 * SECOND

  function Min(a: int, b: int): int { if a <= b then a else b }
  function Max(a: int, b: int): int { if a >= b then a else b }

  function Pow2(n: nat): (p: nat)
    ensures p >= 1
  {
    if n == 0 then 1 else 2 * Pow2(n - 1)
  }

  function BackoffBase(attempt: nat): Time {
    Min(Pow2(attempt), 16) * SECOND
  }

  /** The delays `backoff_seconds` can draw: the base, plus at most a quarter of it, never more
      than two seconds. */
  predicate IsBackoff(attempt: nat, delay: Time) {
    BackoffBase(attempt) <= delay <= BackoffBase(attempt) + Min(BackoffBase(attempt) / 4, 2 * SECOND)
  }

  datatype Verdict = Done(status: JobStatus) | Again(delay: Time)

  /** What a report does to the row, and what else it stops. */
  datatype Decision = Decision(verdict: Verdict, pausesConnection: bool, pausesOwner: bool, strike: bool)

  predicate IsRetryFailure(r: Report) {
    r.Refused? && (r.cls == Transient || r.cls == Unknown)
  }

  function WaitOf(r: Report): nat
    requires r.Refused?
  {
    if r.wait.Some? then r.wait.value else DEFAULT_WAIT
  }

  function Decide(r: Report, attempts: nat, maxAttempts: nat, floodPause: Time, backoff: Time): Decision {
    match r
    case Receipt => Decision(Done(Succeeded), false, false, false)
    case Ambiguous => Decision(Done(NeedsAttention), false, false, false)
    case Refused(cls, _) =>
      match cls
      case Auth => Decision(Done(Failed), true, false, false)
      case Permission => Decision(Done(Skipped), false, false, false)
      case PermanentContent => Decision(Done(Skipped), false, false, false)
      case RateLimit => Decision(Again(WaitOf(r)), false, WaitOf(r) >= floodPause, false)
      case _ =>
        if attempts + 1 >= maxAttempts then Decision(Done(DeadLetter), false, false, true)
        else Decision(Again(backoff), false, false, false)
  }

  function Applied(l: Lease, v: Verdict, now: Time): Lease {
    match v
    case Done(status) => Finished(l, status)
    case Again(delay) => Rescheduled(l, now + delay)
  }

  lemma {:induction false} Pow2Monotone(m: nat, n: nat)
    requires m <= n
    ensures Pow2(m) <= Pow2(n)
  {
    if m < n {
      Pow2Monotone(m, n - 1);
    }
  }

  /** Every backoff lies between min(2^k, 16) and 18 seconds, and the base never shrinks as the
      attempts go up. */
  lemma BackoffBounds(attempt: nat, delay: Time)
    requires IsBackoff(attempt, delay)
    ensures Min(Pow2(attempt), 16) * SECOND <= delay <= 18 * SECOND
    ensures SECOND <= BackoffBase(attempt) <= BackoffBase(attempt + 1)
  {
    Pow2Monotone(attempt, attempt + 1);
  }
}
