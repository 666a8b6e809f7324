/** What a report does to a row, column by column. */
module Outcomes {
  // Forwarding jobs and broadcast targets share it (backend/app/services/delivery.py,
  // backend/app/services/broadcast.py). Times are in microseconds.

  import opened Types
  import opened Leases
  import opened Delivery

  /** The least delay before the next try, by the attempts made: 1, 2, 4, 8 and then 16 seconds. */
  function LeastDelay(attempts: nat): Time {
    if attempts == 0 then 1_000_000
    else if attempts == 1 then 2_000_000
    else if attempts == 2 then 4_000_000
    else if attempts == 3 then 8_000_000
    else 16_000_000
  }

  /** A quarter more, but never more than two seconds more. */
  function MostDelay(attempts: nat): Time {
    if attempts < 4 then LeastDelay(attempts) + LeastDelay(attempts) / 4 else 18_000_000
  }

  /** The row has come to an end, and gives up its lease. */
  predicate Ends(before: Lease, after: Lease, status: JobStatus) {
    after == Lease(status, before.attempts, before.notBefore, None, None)
  }

  /** The row is queued again, one attempt later, and not due before `from` nor after `to`. */
  predicate TriedAgain(before: Lease, after: Lease, from: Time, to: Time) {
    after == Lease(Pending, before.attempts + 1, after.notBefore, None, None) && from <= after.notBefore <= to
  }

  /** The failures that are tried again as long as attempts are left. */
  predicate RetryFailure(r: Report) {
    r.Refused? && (r.cls == Transient || r.cls == Unknown)
  }

  predicate Outcome(before: Lease, after: Lease, r: Report, limit: nat, now: Time) {
    match r
    case Receipt => Ends(before, after, Succeeded)
    case Ambiguous => Ends(before, after, NeedsAttention)
    case Refused(Auth, _) => Ends(before, after, Failed)
    case Refused(Permission, _) => Ends(before, after, Skipped)
    case Refused(PermanentContent, _) => Ends(before, after, Skipped)
    case Refused(RateLimit, wait) =>
      var until := now + if wait.Some? then wait.value else 60_000_000;
      TriedAgain(before, after, until, until)
    case Refused(_, _) =>
      if before.attempts + 1 >= limit then Ends(before, after, DeadLetter)
      else TriedAgain(before, after, now + LeastDelay(before.attempts), now + MostDelay(before.attempts))
  }

  /** The delays that can be drawn are these. */
  lemma DelaysAreBackoffs(attempts: nat, delay: Time)
    ensures IsBackoff(attempts, delay) <==> LeastDelay(attempts) <= delay <= MostDelay(attempts)
  {
    if attempts >= 4 {
      Pow2Monotone(4, attempts);
      assert Pow2(4) == 16;
    }
  }

  /** The decision and what it does to the row come to just that. */
  lemma DecisionIsOutcome(before: Lease, r: Report, limit: nat, floodPause: Time, backoff: Time, now: Time)
    requires IsBackoff(before.attempts, backoff)
    ensures Outcome(before, Applied(before, Decide(r, before.attempts, Max(1, limit), floodPause, backoff).verdict, now), r, limit, now)
  {
    DelaysAreBackoffs(before.attempts, backoff);
  }
}
