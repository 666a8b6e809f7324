/** The claim/lease discipline that forwarding jobs and broadcast targets share.
    Each function is the effect of one statement on one row. */
module Leases {
  import opened Types

  datatype Lease = Lease(
    status: JobStatus,
    attempts: nat,
    notBefore: Time,
    owner: Option<WorkerId>,
    expires: Option<Time>)

  function Fresh(notBefore: Time): Lease {
    Lease(Pending, 0, notBefore, None, None)
  }

  /** A row that is not leased names no owner and no expiry; a leased one names both. */
  predicate Tidy(l: Lease) {
    if l.status == Leased then l.owner.Some? && l.expires.Some? else l.owner == None && l.expires == None
  }

  predicate Claimable(l: Lease, now: Time) {
    l.status == Pending && l.notBefore <= now
  }

  function Claimed(l: Lease, w: WorkerId, deadline: Time): Lease {
    l.(status := Leased, owner := Some(w), expires := Some(deadline))
  }

  function Heartbeaten(l: Lease, w: WorkerId, deadline: Time): Lease {
    if l.owner == Some(w) then l.(expires := Some(deadline)) else l
  }

  predicate Lapsed(l: Lease, now: Time) {
    l.status == Leased && l.expires.Some? && l.expires.value < now
  }

  /** Back to the queue: backpressure and reclaiming write the same three fields. */
  function Released(l: Lease): Lease {
    l.(status := Pending, owner := None, expires := None)
  }

  function Finished(l: Lease, status: JobStatus): Lease {
    l.(status := status, owner := None, expires := None)
  }

  function Rescheduled(l: Lease, notBefore: Time): Lease {
    Lease(Pending, l.attempts + 1, notBefore, None, None)
  }

  predicate Unstarted(l: Lease) {
    l.status == Pending || l.status == Leased
  }

  function Cancelled(l: Lease): Lease {
    if Unstarted(l) then l.(status := Skipped, owner := None, expires := None) else l
  }

  predicate Requeueable(l: Lease) {
    l.status == Failed || l.status == NeedsAttention || l.status == DeadLetter
  }

  /** A manual retry. It clears the owner but leaves the expiry column alone. */
  function Requeued(l: Lease, now: Time): Lease {
    if Requeueable(l) then l.(status := Pending, attempts := 0, notBefore := now, owner := None) else l
  }
}
