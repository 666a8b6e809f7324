/** The broadcast tables, updated in place. */
module AdStore {
  // The transactions of backend/app/repositories/broadcasts.py, backend/app/services/broadcast.py and
  // backend/app/worker.py.

  import opened Types
  import opened Leases
  import opened Delivery
  import opened Broadcasts
  import opened Settling
  import opened Admission
  import B = Broadcasting
  import Weighing
  import Sweeping
  import AE = AdEffects
  import Outcomes

  class Store {
    var ads: AdTable
    var targets: TargetTable
    var notified: seq<(RowId, nat)>

    constructor ()
      ensures ads == map[] && targets == map[] && notified == []
    {
      ads, targets, notified := map[], map[], [];
    }

    // ----------------------------------------------------------------------
    // Reading in position order
    // ----------------------------------------------------------------------

    /** ORDER BY position over rows whose positions differ. */
    method OrderByPosition(rows: set<RowId>) returns (order: seq<RowId>)
      requires forall r :: r in rows ==> r in targets
      requires forall r, u :: r in rows && u in rows && targets[r].position == targets[u].position ==> r == u
      ensures InOrder(targets, rows, order)
    {
      order := [];
      var todo := rows;
      while todo != {}
        invariant Ordering(targets, rows, todo, order)
        decreases |todo|
      {
        ghost var lowest := LowestExists(targets, todo);
        var r :| r in todo && forall u :: u in todo ==> targets[r].position <= targets[u].position;
        OrderGrows(targets, rows, todo, order, r);
        order := order + [r];
        todo := todo - {r};
      }
      assert rows - {} == rows;
    }

    /** The waiting rows of the ad, `delayMs` apart in position order. */
    method ScheduleTargets(b: RowId, delayMs: nat, start: Time) returns (queued: nat)
      requires B.PlacesDistinct(targets)
      modifies `targets
      ensures targets == Staggered(old(targets), b, delayMs, start)
      ensures targets.Keys == old(targets).Keys
      ensures forall r :: AE.RetimedRow(old(targets), targets, b, delayMs, start, r)
      ensures queued == |PendingOf(old(targets), b)|
    {
      ghost var before := targets;
      var rows := PendingOf(targets, b);
      PlacesDiffer(targets, b);
      var order := OrderByPosition(rows);
      InOrderSize(targets, rows, order);
      for i := 0 to |order|
        invariant Spread(before, targets, rows, order, delayMs, start, Retimed, i)
      {
        var slot := start + delayMs * i * MILLISECOND;
        SpreadOn(before, targets, rows, order, delayMs, start, Retimed, i, slot);
        var t := targets[order[i]];
        targets := targets[order[i] := t.(lease := t.lease.(notBefore := slot))];
      }
      SpreadIsStaggered(before, targets, b, order, delayMs, start);
      forall r ensures AE.RetimedRow(before, targets, b, delayMs, start, r) {
        if r in before {
          AE.StaggeredRow(before, b, delayMs, start, r);
        }
      }
      queued := |order|;
    }

    /** Every row of the ad goes back to the start, `delayMs` apart in position order. */
    method ReopenForRepeat(b: RowId, delayMs: nat, start: Time) returns (reopened: nat)
      requires B.PlacesDistinct(targets)
      modifies `targets
      ensures targets == Reopened(old(targets), b, delayMs, start)
      ensures targets.Keys == old(targets).Keys
      ensures forall r :: AE.RestartedRow(old(targets), targets, b, delayMs, start, r)
      ensures reopened == |RowsOf(old(targets), b)|
    {
      ghost var before := targets;
      var rows := RowsOf(targets, b);
      PlacesDiffer(targets, b);
      var order := OrderByPosition(rows);
      InOrderSize(targets, rows, order);
      for i := 0 to |order|
        invariant Spread(before, targets, rows, order, delayMs, start, Restarted, i)
      {
        var slot := start + delayMs * i * MILLISECOND;
        SpreadOn(before, targets, rows, order, delayMs, start, Restarted, i, slot);
        targets := targets[order[i] := targets[order[i]].(lease := Lease(Pending, 0, slot, None, None))];
      }
      SpreadIsReopened(before, targets, b, order, delayMs, start);
      forall r ensures AE.RestartedRow(before, targets, b, delayMs, start, r) {
        if r in before {
          AE.ReopenedRow(before, b, delayMs, start, r);
        }
      }
      reopened := |order|;
    }

    // ----------------------------------------------------------------------
    // The target list
    // ----------------------------------------------------------------------

    /** The ad's rows by chat. */
    method RowsByChat(b: RowId) returns (existing: map<RowId, RowId>)
      requires B.PlacesDistinct(targets)
      ensures ByChat(targets, b, RowsOf(targets, b), existing)
    {
      existing := map[];
      var todo := RowsOf(targets, b);
      while todo != {}
        invariant todo <= RowsOf(targets, b)
        invariant ByChat(targets, b, RowsOf(targets, b) - todo, existing)
        decreases |todo|
      {
        var r :| r in todo;
        IndexOneMore(targets, b, todo, existing, r);
        existing := existing[targets[r].chat := r];
        todo := todo - {r};
      }
      assert RowsOf(targets, b) - {} == RowsOf(targets, b);
    }

    /** The chats asked for, repeats dropped, in order of first appearance. */
    static method FirstAppearances(chats: seq<RowId>) returns (wanted: seq<RowId>, seen: set<RowId>)
      ensures wanted == Distinct(chats)
      ensures seen == Members(chats)
    {
      wanted, seen := [], {};
      for i := 0 to |chats|
        invariant wanted == Distinct(chats[..i])
        invariant seen == Members(chats[..i])
      {
        assert chats[..i + 1][..i] == chats[..i] && chats[..i + 1] == chats[..i] + [chats[i]];
        if chats[i] !in seen {
          seen := seen + {chats[i]};
          wanted := wanted + [chats[i]];
        }
      }
      assert chats[..|chats|] == chats;
    }

    /** Sets the list of groups: rows of groups that go are deleted, rows of groups that stay only
        change position, groups that come get a fresh row. */
    method ReplaceTargets(b: RowId, chats: seq<RowId>, newIds: seq<RowId>, now: Time) returns (count: nat)
      requires B.PlacesDistinct(targets) && |newIds| == |Distinct(chats)|
      requires forall i, k :: 0 <= i < k < |newIds| ==> newIds[i] != newIds[k]
      requires forall i :: 0 <= i < |newIds| ==> newIds[i] !in targets
      modifies `targets
      ensures targets == Selected(old(targets), b, Distinct(chats), newIds, now)
      ensures count == |Distinct(chats)|
    {
      ghost var before := targets;
      var existing := RowsByChat(b);
      var wanted, seen := FirstAppearances(chats);
      var todo := existing.Keys;
      while todo != {}
        invariant todo <= existing.Keys
        invariant forall r :: Pruned(before, targets, existing, seen, todo, r)
        decreases |todo|
      {
        var c :| c in todo;
        PruneOneMore(before, targets, b, existing, seen, todo, c);
        if c !in seen {
          targets := targets - {existing[c]};
        }
        todo := todo - {c};
      }
      ListingStarts(before, targets, b, existing, chats, newIds, now);
      for i := 0 to |wanted|
        invariant Listed(before, targets, b, existing, wanted, newIds, now, i)
      {
        ListOneMore(before, targets, b, existing, wanted, newIds, now, i);
        if wanted[i] in existing {
          var r := existing[wanted[i]];
          targets := targets[r := targets[r].(position := i)];
        } else {
          targets := targets[newIds[i] := Target(b, wanted[i], i, Lease(Pending, 0, now, None, None))];
        }
      }
      ListingEnds(before, targets, b, existing, wanted, newIds, now);
      count := |wanted|;
    }

    // ----------------------------------------------------------------------
    // Claiming
    // ----------------------------------------------------------------------

    /** Leased targets on the connection, the rows of the batch aside. */
    method InFlightCount(c: ConnId, exclude: seq<RowId>) returns (n: nat)
      ensures n == |LeasedExcept(ads, targets, c, exclude)|
      ensures n == |set r | r in targets && targets[r].lease.status == Leased && targets[r].ad in ads && ads[targets[r].ad].conn == c
                            && r !in exclude|
    {
      n := 0;
      var todo := targets.Keys;
      ghost var counted: set<RowId> := {};
      while todo != {}
        invariant todo <= targets.Keys && todo !! counted && n == |counted|
        invariant forall r :: r in counted <==> r in LeasedExcept(ads, targets, c, exclude) && r !in todo
        decreases |todo|
      {
        var r :| r in todo;
        todo := todo - {r};
        if targets[r].lease.status == Leased && OnConnection(ads, c, targets[r]) && r !in exclude {
          n, counted := n + 1, counted + {r};
        }
      }
      assert counted == LeasedExcept(ads, targets, c, exclude);
      assert counted == set r | r in targets && targets[r].lease.status == Leased && targets[r].ad in ads
                                && ads[targets[r].ad].conn == c && r !in exclude;
    }

    /** The work of a connection that counts against its ceiling: remembered, or else counted. */
    method WorkOn(c: ConnId, batch: seq<RowId>, jobs: ConnId -> nat, perConnection: map<ConnId, nat>) returns (inFlight: nat)
      ensures inFlight == if c in perConnection then perConnection[c] else jobs(c) + |LeasedExcept(ads, targets, c, batch)|
    {
      if c in perConnection {
        inFlight := perConnection[c];
      } else {
        var leased := InFlightCount(c, batch);
        inFlight := jobs(c) + leased;
      }
    }

    /** One row of the batch: kept in hand, or handed back. */
    method AdmitNext(ghost before: TargetTable, w: WorkerId, batch: seq<RowId>, jobs: ConnId -> nat, limit: nat, ghost deadline: Time,
                     i: nat, connectionOf: map<RowId, ConnId>, perConnection: map<ConnId, nat>, accepted: seq<RowId>)
      returns (connectionOf': map<RowId, ConnId>, perConnection': map<ConnId, nat>, accepted': seq<RowId>)
      requires Weighed(ads, before, targets, jobs, batch, limit, w, deadline, perConnection, accepted, i) && i < |batch|
      requires Remembers(connectionOf, ads)
      modifies `targets
      ensures Weighed(ads, before, targets, jobs, batch, limit, w, deadline, perConnection', accepted', i + 1)
      ensures Remembers(connectionOf', ads)
    {
      WeighedRow(ads, before, targets, jobs, batch, limit, w, deadline, perConnection, accepted, i);
      var b := targets[batch[i]].ad;
      connectionOf' := if b in connectionOf then connectionOf else connectionOf[b := ads[b].conn];
      var c := connectionOf'[b];
      var inFlight := WorkOn(c, batch, jobs, perConnection);
      WeighingGoesOn(ads, before, targets, jobs, batch, limit, w, deadline, perConnection, accepted, i, inFlight);
      if inFlight >= limit {
        targets := Put(targets, batch[i], Released(targets[batch[i]].lease));
        perConnection', accepted' := perConnection, accepted;
      } else {
        perConnection', accepted' := perConnection[c := inFlight + 1], accepted + [batch[i]];
      }
    }

    /** Leases the whole batch, then hands back what exceeds the ceiling that both kinds of work share:
        `jobs` is the forwarding work in flight. */
    method ClaimWithinLimits(w: WorkerId, batch: seq<RowId>, jobs: ConnId -> nat, limit: nat, deadline: Time)
      returns (accepted: seq<RowId>)
      requires Claimables(ads, targets, batch)
      modifies `targets
      ensures targets == ClaimedRows(old(targets), Accepted(ads, old(targets), jobs, batch, limit), w, deadline)
      ensures accepted == Kept(ConnsOf(ads, old(targets), batch), batch, BusyOn(ads, old(targets), jobs), limit, |batch|)
      ensures targets.Keys == old(targets).Keys && forall r :: r in targets ==>
        if r in accepted then AE.ClaimedRow(old(targets)[r], targets[r], w, deadline) else targets[r] == old(targets)[r]
    {
      ghost var before := targets;
      targets := ClaimedRows(targets, Members(batch), w, deadline);
      accepted := [];
      var connectionOf: map<RowId, ConnId> := map[];
      var perConnection: map<ConnId, nat> := map[];
      WeighingStarts(ads, before, jobs, batch, limit, w, deadline);
      for i := 0 to |batch|
        invariant Weighed(ads, before, targets, jobs, batch, limit, w, deadline, perConnection, accepted, i)
        invariant Remembers(connectionOf, ads)
      {
        connectionOf, perConnection, accepted :=
          AdmitNext(before, w, batch, jobs, limit, deadline, i, connectionOf, perConnection, accepted);
      }
      WeighingEnds(ads, before, targets, jobs, batch, limit, w, deadline, perConnection, accepted);
      KeptIsAccepted(ads, before, jobs, batch, limit);
    }

    // ----------------------------------------------------------------------
    // The flood-wait sweep
    // ----------------------------------------------------------------------

    /** The earliest release time among the ad's waiting targets. */
    method Earliest(b: RowId) returns (due: Option<Time>)
      ensures due.None? <==> PendingOf(targets, b) == {}
      ensures due.Some? ==> exists r :: r in PendingOf(targets, b) && targets[r].lease.notBefore == due.value
      ensures due.Some? ==> forall r :: r in PendingOf(targets, b) ==> due.value <= targets[r].lease.notBefore
    {
      due := None;
      var todo := PendingOf(targets, b);
      while todo != {}
        invariant todo <= PendingOf(targets, b)
        invariant due.None? ==> todo == PendingOf(targets, b)
        invariant due.Some? ==> exists r :: r in PendingOf(targets, b) && targets[r].lease.notBefore == due.value
        invariant due.Some? ==> forall r :: r in PendingOf(targets, b) - todo ==> due.value <= targets[r].lease.notBefore
        decreases |todo|
      {
        var r :| r in todo;
        var at := targets[r].lease.notBefore;
        if due.None? || at < due.value {
          due := Some(at);
        }
        todo := todo - {r};
      }
    }

    /** Ads paused for a Telegram wait resume once a waiting target is due; no other pause is touched. */
    method ResumeFloodPaused(now: Time) returns (resumed: nat)
      modifies `ads
      ensures ads == FloodResumed(old(ads), targets, now)
      ensures ads.Keys == old(ads).Keys
      ensures forall b :: b in ads ==>
        ads[b] == if WaitIsOver(old(ads)[b], targets, b, now) then old(ads)[b].(status := AdSending, reason := NoReason) else old(ads)[b]
    {
      ghost var before := ads;
      resumed := 0;
      var todo := set b | b in ads && FloodPaused(ads[b]);
      while todo != {}
        invariant todo <= before.Keys
        invariant forall b :: b in todo ==> FloodPaused(before[b])
        invariant ads.Keys == before.Keys
        invariant forall b :: b in before ==> ads[b] == if b in todo then before[b] else FloodResumed(before, targets, now)[b]
        decreases |todo|
      {
        var b :| b in todo;
        var due := Earliest(b);
        todo := todo - {b};
        if due.Some? && due.value <= now {
          ads := ads[b := ads[b].(status := AdSending, reason := NoReason)];
          resumed := resumed + 1;
        }
      }
      forall b | b in before ensures FloodPaused(before[b]) && AnyDue(targets, b, now) <==> WaitIsOver(before[b], targets, b, now) {
        SweepFinds(before, targets, now, b);
      }
    }

    // ----------------------------------------------------------------------
    // The life of an ad: the tables follow the machine
    // ----------------------------------------------------------------------

    /** The tables are those of the given state of the broadcast machine. */
    ghost predicate Holds(s: B.Board)
      reads this
    {
      ads == s.ads && targets == s.targets && notified == s.notified
    }

    /** Refused before anything changes, or handed to the worker. */
    method Queue(ghost s: B.Board, b: RowId, valid: bool, start: Time) returns (queued: bool)
      requires Holds(s) && b in ads && B.PlacesDistinct(targets)
      modifies this
      ensures queued == valid && Holds(if valid then B.Queued(s, b, start) else s)
      ensures valid ==> AE.SameAds(old(ads), ads, b) && ads[b] == old(ads)[b].(status := AdSending, reason := NoReason)
      ensures valid ==> targets.Keys == old(targets).Keys
      ensures valid ==> forall r :: AE.RetimedRow(old(targets), targets, b, old(ads)[b].delayMs, start, r)
    {
      queued := valid;
      if valid {
        ads := ads[b := ads[b].(status := AdSending, reason := NoReason)];
        var count := ScheduleTargets(b, ads[b].delayMs, start);
      }
    }

    /** Stops what has not been sent; what has been sent stays on record. */
    method Cancel(ghost s: B.Board, settings: Settings, now: Time, b: RowId)
      requires Holds(s) && b in ads
      modifies this
      ensures Holds(B.Apply(settings, now, s, B.CancelAd(b)))
      ensures AE.SameAds(old(ads), ads, b) && ads[b] == old(ads)[b].(status := AdCancelled)
      ensures targets.Keys == old(targets).Keys && forall r :: r in targets ==>
        if old(targets)[r].ad == b then AE.CancelledRow(old(targets)[r], targets[r]) else targets[r] == old(targets)[r]
    {
      ads := ads[b := ads[b].(status := AdCancelled)];
      targets := CancelledFor(targets, b);
    }

    /** Every failed, ambiguous or dead target of the ad is due at once, with no attempts and no owner;
        the expiry column stays, as does every other row. */
    method RequeueFailed(b: RowId, now: Time) returns (requeued: bool)
      modifies `targets
      ensures requeued == AnyRequeueable(old(targets), b)
      ensures requeued <==> exists u :: u in old(targets) && old(targets)[u].ad == b && AE.DidNotArrive(old(targets)[u].lease)
      ensures targets == RequeuedFor(old(targets), b, now)
      ensures targets.Keys == old(targets).Keys
      ensures forall r :: r in targets ==>
        targets[r] == if old(targets)[r].ad == b && AE.DidNotArrive(old(targets)[r].lease)
                      then old(targets)[r].(lease := Lease(Pending, 0, now, None, old(targets)[r].lease.expires))
                      else old(targets)[r]
    {
      requeued := AnyRequeueable(targets, b);
      targets := RequeuedFor(targets, b, now);
    }

    /** Queues what did not arrive, each target at the time of its place, and sets the ad going again;
        with nothing to retry, does nothing. */
    method RetryUnfinished(ghost s: B.Board, now: Time, b: RowId) returns (retried: bool)
      requires Holds(s) && b in ads && B.PlacesDistinct(targets)
      modifies this
      ensures retried <==> exists u :: u in old(targets) && old(targets)[u].ad == b && AE.DidNotArrive(old(targets)[u].lease)
      ensures Holds(if retried then B.Retried(s, b, now) else s)
      ensures if retried then Retried(s, ads, targets, b, now) else ads == s.ads && targets == s.targets
    {
      retried := RequeueFailed(b, now);
      if !retried {
        NothingRequeued(s.targets, b, now);
        return;
      }
      ads := ads[b := ads[b].(status := AdSending, reason := NoReason)];
      RequeueKeepsPlaces(s.targets, b, now);
      var count := ScheduleTargets(b, ads[b].delayMs, now);
      AllRetried(s, b, now);
    }

    /** Finishes the round if nothing remains: counts it, reports it, and reopens or completes the ad.
        `sending` is the status of the ad as the caller knows it. */
    method Settle(ghost s: B.Board, b: RowId, sending: bool, now: Time) returns (finished: bool)
      requires Holds(s) && b in ads && B.PlacesDistinct(targets)
      modifies this
      ensures Holds(B.Settled(s, b, sending, now))
      ensures finished <==> sending && B.RoundOver(s, b) && !Repeats(s.ads[b])
    {
      finished := false;
      if !sending {
        return;
      }
      if RemainingOf(targets, b) != {} {
        return;
      }
      ads := ads[b := ads[b].(rounds := ads[b].rounds + 1)];
      ReportRound(b);
      if Repeats(ads[b]) {
        var start := now + ads[b].repeat.value * SECOND;
        var count := ReopenForRepeat(b, ads[b].delayMs, start);
        return;
      }
      ads := ads[b := ads[b].(status := AdCompleted)];
      finished := true;
    }

    /** One notification for a round that had any group: its numbers add up to the groups of the ad. */
    method ReportRound(b: RowId)
      requires b in ads && RemainingOf(targets, b) == {}
      modifies `notified
      ensures notified == if RowsOf(targets, b) == {} then old(notified) else old(notified) + [(b, ads[b].rounds)]
    {
      var delivered := |DeliveredIn(targets, b)|;
      var missed := |MissedIn(targets, b)|;
      EveryGroupCounted(targets, b);
      if delivered + missed == 0 {
        return;
      }
      notified := notified + [(b, ads[b].rounds)];
    }

    method Finish(r: RowId, status: JobStatus)
      requires r in targets
      modifies `targets
      ensures AE.SameRows(old(targets), targets, {r}) && AE.OnlyLease(old(targets)[r], targets[r])
      ensures Outcomes.Ends(old(targets)[r].lease, targets[r].lease, status)
      ensures targets == Put(old(targets), r, Finished(old(targets)[r].lease, status))
    {
      targets := targets[r := targets[r].(lease := targets[r].lease.(status := status, owner := None, expires := None))];
    }

    method Reschedule(r: RowId, delay: Time, now: Time)
      requires r in targets
      modifies `targets
      ensures AE.SameRows(old(targets), targets, {r}) && AE.OnlyLease(old(targets)[r], targets[r])
      ensures Outcomes.TriedAgain(old(targets)[r].lease, targets[r].lease, now + delay, now + delay)
      ensures targets == Put(old(targets), r, Rescheduled(old(targets)[r].lease, now + delay))
    {
      var l := targets[r].lease;
      targets := targets[r := targets[r].(lease := Lease(Pending, l.attempts + 1, now + delay, None, None))];
    }

    /** UPDATE ... WHERE id = r AND lease_owner = w: the owner's row gets the new expiry and keeps
        everything else; every other row is as it was. */
    method Heartbeat(r: RowId, w: WorkerId, deadline: Time)
      modifies `targets
      ensures AE.SameRows(old(targets), targets, {r})
      ensures r in targets ==> AE.Extended(old(targets)[r], targets[r], w, deadline)
      ensures targets == if r in old(targets) then Put(old(targets), r, Heartbeaten(old(targets)[r].lease, w, deadline)) else old(targets)
    {
      if r in targets && targets[r].lease.owner == Some(w) {
        targets := targets[r := targets[r].(lease := targets[r].lease.(expires := Some(deadline)))];
      }
    }

    /** Ads that are sending on the connection pause, one by one. */
    method PauseAds(c: ConnId, reason: PauseReason)
      modifies `ads
      ensures ads == PausedOn(old(ads), c, reason)
      ensures ads.Keys == old(ads).Keys && forall b :: b in ads ==>
        ads[b] == if old(ads)[b].conn == c && old(ads)[b].status == AdSending then old(ads)[b].(status := AdPaused, reason := reason)
                  else old(ads)[b]
    {
      ghost var before, after := ads, PausedOn(ads, c, reason);
      var todo := SendingOn(ads, c);
      Sweeping.SweepStarts(before, after, todo);
      while todo != {}
        invariant todo <= SendingOn(before, c)
        invariant forall b :: Sweeping.SweptUpTo(before, ads, after, todo, b)
        decreases |todo|
      {
        var b :| b in todo;
        assert Sweeping.SweptUpTo(before, ads, after, todo, b);
        Sweeping.SweepOneMore(before, ads, after, todo, b, ads[b := ads[b].(status := AdPaused, reason := reason)], todo - {b});
        ads := ads[b := ads[b].(status := AdPaused, reason := reason)];
        todo := todo - {b};
      }
      Sweeping.SweepEnds(before, ads, after);
    }

    /** The ads pause; then their unstarted targets, and those of every other ad of the connection,
        are cancelled. `known` is the connection's status as the caller loaded it: if it was paused
        already, nothing happens. */
    method PauseConnection(c: ConnId, reason: PauseReason, known: ConnStatus)
      modifies `ads, `targets
      ensures ads == if known == PausedSafety then old(ads) else PausedOn(old(ads), c, reason)
      ensures targets == if known == PausedSafety then old(targets) else CancelledForConnection(old(ads), old(targets), c)
      ensures targets.Keys == old(targets).Keys
      ensures known != PausedSafety ==> forall r :: r in targets ==>
        if old(targets)[r].ad in old(ads) && old(ads)[old(targets)[r].ad].conn == c then AE.CancelledRow(old(targets)[r], targets[r])
        else targets[r] == old(targets)[r]
    {
      if known == PausedSafety {
        return;
      }
      PauseAds(c, reason);
      SameConnections(old(ads), ads, targets, c);
      targets := CancelledForConnection(ads, targets, c);
    }

    /** What the worker writes once a post is over, branch by branch, down to settling the round. */
    method CommitReport(ghost s: B.Board, t: B.Task, report: Report, settings: Settings, backoff: Time, sending: bool, now: Time)
      requires Holds(s) && B.PlacesDistinct(targets)
      requires t in s.hands && s.hands[t] == B.Sent(report) && t.target in s.targets && t.target in s.tally
      requires s.targets[t.target].ad in s.ads
      modifies this
      ensures Holds(B.Committed(settings, s, t, backoff, sending, now))
    {
      var r := t.target;
      var b := targets[r].ad;
      var attempts := targets[r].lease.attempts;
      ghost var w := B.Written(settings, s, t, backoff, now);
      if report.Ambiguous? {
        Finish(r, NeedsAttention);
      } else if report.Refused? && report.cls == Auth {
        PauseConnection(ads[b].conn, ConnectionLost, ConnActive);
        Finish(r, Failed);
      } else if report.Refused? && report.cls == RateLimit {
        var wait := if report.wait.Some? then report.wait.value else 60 * SECOND;
        if wait >= settings.floodPause {
          ads := ads[b := ads[b].(status := AdPaused, reason := FloodWait)];
        }
        Reschedule(r, wait, now);
      } else if report.Refused? && (report.cls == Transient || report.cls == Unknown) && attempts + 1 < settings.maxAttempts {
        Reschedule(r, backoff, now);
      } else {
        var status := if report.Receipt? then Succeeded
                      else if report.cls == Permission || report.cls == PermanentContent then Skipped else DeadLetter;
        WrittenKeepsPlaces(settings, s, t, backoff, now);
        Finish(r, status);
        var finished := Settle(w, b, sending, now);
      }
    }
  }

  // ------------------------------------------------------------------------
  // The claim loop on targets
  // ------------------------------------------------------------------------

  function LeasedExcept(ads: AdTable, targets: TargetTable, c: ConnId, exclude: seq<RowId>): set<RowId> {
    set r | r in LeasedOn(ads, targets, c) && r !in exclude
  }

  /** What a claimed batch looks like before the claim: waiting, tidy, of known ads, no row twice. */
  ghost predicate Claimables(ads: AdTable, before: TargetTable, batch: seq<RowId>) {
    && (forall k :: 0 <= k < |batch| ==>
          && batch[k] in before && before[batch[k]].ad in ads
          && before[batch[k]].lease.status == Pending && Tidy(before[batch[k]].lease))
    && (forall k, m :: 0 <= k < m < |batch| ==> batch[k] != batch[m])
  }

  ghost predicate Remembers(connectionOf: map<RowId, ConnId>, ads: AdTable) {
    forall b :: b in connectionOf ==> b in ads && connectionOf[b] == ads[b].conn
  }

  ghost predicate Weighed(ads: AdTable, before: TargetTable, targets: TargetTable, jobs: ConnId -> nat, batch: seq<RowId>, limit: nat,
                          w: WorkerId, deadline: Time, perConnection: map<ConnId, nat>, accepted: seq<RowId>, i: nat)
  {
    && Claimables(ads, before, batch)
    && Weighing.After(before, ClaimedRows(before, Members(batch), w, deadline), targets, batch,
                      ConnsOf(ads, before, batch), BusyOn(ads, before, jobs), limit, perConnection, accepted, i)
  }

  lemma WeighingStarts(ads: AdTable, before: TargetTable, jobs: ConnId -> nat, batch: seq<RowId>, limit: nat, w: WorkerId, deadline: Time)
    requires Claimables(ads, before, batch)
    ensures Weighed(ads, before, ClaimedRows(before, Members(batch), w, deadline), jobs, batch, limit, w, deadline, map[], [], 0)
  {
    Weighing.Starts(before, ClaimedRows(before, Members(batch), w, deadline), batch,
                    ConnsOf(ads, before, batch), BusyOn(ads, before, jobs), limit);
  }

  /** The next row is still leased by the batch, and the rows of the batch do not count against it. */
  lemma WeighedRow(ads: AdTable, before: TargetTable, targets: TargetTable, jobs: ConnId -> nat, batch: seq<RowId>, limit: nat,
                   w: WorkerId, deadline: Time, perConnection: map<ConnId, nat>, accepted: seq<RowId>, i: nat)
    requires Weighed(ads, before, targets, jobs, batch, limit, w, deadline, perConnection, accepted, i) && i < |batch|
    ensures batch[i] in targets && targets[batch[i]] == before[batch[i]].(lease := Claimed(before[batch[i]].lease, w, deadline))
    ensures targets[batch[i]].ad in ads
    ensures Put(targets, batch[i], Released(targets[batch[i]].lease)) == targets[batch[i] := before[batch[i]]]
    ensures var c := ads[targets[batch[i]].ad].conn;
      |LeasedExcept(ads, targets, c, batch)| == InFlight(ads, before, c)
  {
    var claimed := ClaimedRows(before, Members(batch), w, deadline);
    var conns, base := ConnsOf(ads, before, batch), BusyOn(ads, before, jobs);
    assert Weighing.Handled(before, claimed, targets, batch, conns, base, limit, i, batch[i]);
    var c := ads[targets[batch[i]].ad].conn;
    forall r ensures r in LeasedExcept(ads, targets, c, batch) <==> r in LeasedOn(ads, before, c) {
      assert Weighing.Handled(before, claimed, targets, batch, conns, base, limit, i, r);
    }
    assert LeasedExcept(ads, targets, c, batch) == LeasedOn(ads, before, c);
  }

  lemma WeighingGoesOn(ads: AdTable, before: TargetTable, targets: TargetTable, jobs: ConnId -> nat, batch: seq<RowId>, limit: nat,
                       w: WorkerId, deadline: Time, perConnection: map<ConnId, nat>, accepted: seq<RowId>, i: nat, inFlight: nat)
    requires Weighed(ads, before, targets, jobs, batch, limit, w, deadline, perConnection, accepted, i) && i < |batch|
    requires batch[i] in targets && targets[batch[i]].ad in ads
    requires var c := ads[targets[batch[i]].ad].conn;
      inFlight == if c in perConnection then perConnection[c] else jobs(c) + |LeasedExcept(ads, targets, c, batch)|
    ensures if inFlight >= limit then
              Weighed(ads, before, Put(targets, batch[i], Released(targets[batch[i]].lease)), jobs, batch, limit, w, deadline,
                      perConnection, accepted, i + 1)
            else
              Weighed(ads, before, targets, jobs, batch, limit, w, deadline,
                      perConnection[ads[targets[batch[i]].ad].conn := inFlight + 1], accepted + [batch[i]], i + 1)
  {
    WeighedRow(ads, before, targets, jobs, batch, limit, w, deadline, perConnection, accepted, i);
    Weighing.GoesOn(before, ClaimedRows(before, Members(batch), w, deadline), targets, batch,
                    ConnsOf(ads, before, batch), BusyOn(ads, before, jobs), limit, perConnection, accepted, i, inFlight);
  }

  lemma WeighingEnds(ads: AdTable, before: TargetTable, targets: TargetTable, jobs: ConnId -> nat, batch: seq<RowId>, limit: nat,
                     w: WorkerId, deadline: Time, perConnection: map<ConnId, nat>, accepted: seq<RowId>)
    requires Weighed(ads, before, targets, jobs, batch, limit, w, deadline, perConnection, accepted, |batch|)
    ensures targets == ClaimedRows(before, Accepted(ads, before, jobs, batch, limit), w, deadline)
    ensures accepted == Kept(ConnsOf(ads, before, batch), batch, BusyOn(ads, before, jobs), limit, |batch|)
  {
    var claimed := ClaimedRows(before, Members(batch), w, deadline);
    var rows := Accepted(ads, before, jobs, batch, limit);
    var conns, base := ConnsOf(ads, before, batch), BusyOn(ads, before, jobs);
    forall r ensures (r in targets <==> r in before) && (r in before ==> targets[r] == ClaimedRows(before, rows, w, deadline)[r]) {
      Weighing.Ends(before, claimed, targets, batch, conns, base, limit, perConnection, accepted, r);
      AcceptedIsKept(ads, before, jobs, batch, limit, r);
    }
  }

  lemma AcceptedIsKept(ads: AdTable, before: TargetTable, jobs: ConnId -> nat, batch: seq<RowId>, limit: nat, r: RowId)
    requires Claimables(ads, before, batch)
    ensures r in Accepted(ads, before, jobs, batch, limit)
       <==> r in Kept(ConnsOf(ads, before, batch), batch, BusyOn(ads, before, jobs), limit, |batch|)
    ensures r in Accepted(ads, before, jobs, batch, limit) ==> r in Members(batch)
  {
    if r in batch {
      var k :| 0 <= k < |batch| && batch[k] == r;
      KeptExactly(ConnsOf(ads, before, batch), batch, BusyOn(ads, before, jobs), limit, |batch|, k);
    } else {
      KeptFromFront(ConnsOf(ads, before, batch), batch, BusyOn(ads, before, jobs), limit, |batch|);
    }
  }

  // ------------------------------------------------------------------------
  // The flood-wait sweep, and places
  // ------------------------------------------------------------------------

  /** The ad is paused for a wait, and one of its waiting targets is due. */
  ghost predicate WaitIsOver(ad: Ad, targets: TargetTable, b: RowId, now: Time) {
    && ad.status == AdPaused && (ad.reason == FloodWait || ad.reason == LegacyFloodWait)
    && exists r :: r in targets && targets[r].ad == b && targets[r].lease.status == Pending && targets[r].lease.notBefore <= now
  }

  lemma SweepFinds(ads: AdTable, targets: TargetTable, now: Time, b: RowId)
    requires b in ads
    ensures FloodPaused(ads[b]) && AnyDue(targets, b, now) <==> WaitIsOver(ads[b], targets, b, now)
  {
    if WaitIsOver(ads[b], targets, b, now) {
      var r :| r in targets && targets[r].ad == b && targets[r].lease.status == Pending && targets[r].lease.notBefore <= now;
      assert r in PendingOf(targets, b);
    }
  }

  predicate FloodPaused(ad: Ad) {
    ad.status == AdPaused && (ad.reason == FloodWait || ad.reason == LegacyFloodWait)
  }

  predicate AnyDue(targets: TargetTable, b: RowId, now: Time) {
    exists r :: r in PendingOf(targets, b) && targets[r].lease.notBefore <= now
  }

  /** Every flood-paused ad with a due target is sending again. */
  function FloodResumed(ads: AdTable, targets: TargetTable, now: Time): (r: AdTable)
    ensures r.Keys == ads.Keys
    ensures forall b :: b in ads ==>
      r[b] == if FloodPaused(ads[b]) && AnyDue(targets, b, now) then ads[b].(status := AdSending, reason := NoReason) else ads[b]
  {
    map b | b in ads ::
      if FloodPaused(ads[b]) && AnyDue(targets, b, now) then ads[b].(status := AdSending, reason := NoReason) else ads[b]
  }

  function SendingOn(ads: AdTable, c: ConnId): set<RowId> {
    set b | b in ads && ads[b].conn == c && ads[b].status == AdSending
  }

  /** The ad is sending, what did not arrive waits at the time of its place, and something does. */
  ghost predicate Retried(s: B.Board, ads: AdTable, targets: TargetTable, b: RowId, now: Time)
    requires b in s.ads
  {
    && AE.SameAds(s.ads, ads, b) && b in ads && ads[b] == s.ads[b].(status := AdSending, reason := NoReason)
    && targets.Keys == s.targets.Keys
    && (forall r :: AE.RetriedRow(s.targets, targets, b, s.ads[b].delayMs, now, r))
    && exists u :: u in targets && targets[u].ad == b && targets[u].lease.status == Pending
  }

  /** That is the retry step of the machine. */
  lemma RetryIsStep(settings: Settings, now: Time, s: B.Board, b: RowId)
    requires B.Enabled(settings, now, s, B.RetryAd(b))
    ensures B.Apply(settings, now, s, B.RetryAd(b))
         == if exists u :: u in s.targets && s.targets[u].ad == b && AE.DidNotArrive(s.targets[u].lease) then B.Retried(s, b, now) else s
  {
    assert AnyRequeueable(s.targets, b) <==> exists u :: u in s.targets && s.targets[u].ad == b && AE.DidNotArrive(s.targets[u].lease);
  }

  lemma NothingRequeued(targets: TargetTable, b: RowId, now: Time)
    requires !AnyRequeueable(targets, b)
    ensures RequeuedFor(targets, b, now) == targets
  {
  }

  lemma AllRetried(s: B.Board, b: RowId, now: Time)
    requires b in s.ads
    requires exists u :: u in s.targets && s.targets[u].ad == b && AE.DidNotArrive(s.targets[u].lease)
    ensures Retried(s, s.ads[b := s.ads[b].(status := AdSending, reason := NoReason)],
                    Staggered(RequeuedFor(s.targets, b, now), b, s.ads[b].delayMs, now), b, now)
  {
    var targets := Staggered(RequeuedFor(s.targets, b, now), b, s.ads[b].delayMs, now);
    forall r ensures AE.RetriedRow(s.targets, targets, b, s.ads[b].delayMs, now, r) {
      if r in s.targets {
        AE.RequeuedThenRetimed(s.targets, b, s.ads[b].delayMs, now, r);
      }
    }
    var u :| u in s.targets && s.targets[u].ad == b && AE.DidNotArrive(s.targets[u].lease);
    assert targets[u].ad == b && targets[u].lease.status == Pending;
  }

  /** What the loop keeps in order is what the claim accepts as a set. */
  lemma KeptIsAccepted(ads: AdTable, before: TargetTable, jobs: ConnId -> nat, batch: seq<RowId>, limit: nat)
    requires Claimables(ads, before, batch)
    ensures forall r :: (r in Kept(ConnsOf(ads, before, batch), batch, BusyOn(ads, before, jobs), limit, |batch|)) <==>
      (r in Accepted(ads, before, jobs, batch, limit))
  {
    var conns, base := ConnsOf(ads, before, batch), BusyOn(ads, before, jobs);
    KeptFromFront(conns, batch, base, limit, |batch|);
    forall r ensures r in Kept(conns, batch, base, limit, |batch|) <==> r in Accepted(ads, before, jobs, batch, limit) {
      if r in batch {
        var i: nat :| i < |batch| && batch[i] == r;
        KeptExactly(conns, batch, base, limit, |batch|, i);
      }
    }
  }

  lemma RequeueKeepsPlaces(targets: TargetTable, b: RowId, now: Time)
    requires B.PlacesDistinct(targets)
    ensures B.PlacesDistinct(RequeuedFor(targets, b, now))
  {
    forall r, u ensures B.OwnPlace(RequeuedFor(targets, b, now), r, u) {
      assert B.OwnPlace(targets, r, u);
    }
  }

  lemma WrittenKeepsPlaces(settings: Settings, s: B.Board, t: B.Task, backoff: Time, now: Time)
    requires t in s.hands && s.hands[t].Sent? && t.target in s.targets && t.target in s.tally
    requires s.targets[t.target].ad in s.ads && B.PlacesDistinct(s.targets)
    ensures B.PlacesDistinct(B.Written(settings, s, t, backoff, now).targets)
  {
    forall r, u ensures B.OwnPlace(B.Written(settings, s, t, backoff, now).targets, r, u) {
      assert B.OwnPlace(s.targets, r, u);
    }
  }

  lemma SameConnections(ads: AdTable, ads': AdTable, targets: TargetTable, c: ConnId)
    requires ads'.Keys == ads.Keys && forall b :: b in ads ==> ads'[b].conn == ads[b].conn
    ensures CancelledForConnection(ads', targets, c) == CancelledForConnection(ads, targets, c)
  {
  }

  // ------------------------------------------------------------------------
  // Replacing the target list
  // ------------------------------------------------------------------------

  /** `existing` maps the chat of each of the given rows of the ad to that row, and nothing else. */
  ghost predicate ByChat(targets: TargetTable, b: RowId, rows: set<RowId>, existing: map<RowId, RowId>) {
    && (forall c :: c in existing ==>
          existing[c] in rows && existing[c] in targets && targets[existing[c]].ad == b && targets[existing[c]].chat == c)
    && (forall r :: r in rows ==> r in targets && targets[r].chat in existing && existing[targets[r].chat] == r)
  }

  lemma IndexOneMore(targets: TargetTable, b: RowId, todo: set<RowId>, existing: map<RowId, RowId>, r: RowId)
    requires B.PlacesDistinct(targets) && todo <= RowsOf(targets, b) && r in todo
    requires ByChat(targets, b, RowsOf(targets, b) - todo, existing)
    ensures ByChat(targets, b, RowsOf(targets, b) - (todo - {r}), existing[targets[r].chat := r])
  {
    var rows := RowsOf(targets, b) - (todo - {r});
    forall u | u in rows
      ensures var after := existing[targets[r].chat := r]; u in targets && targets[u].chat in after && after[targets[u].chat] == u
    {
      assert B.OwnPlace(targets, r, u);
    }
  }

  /** One row while the rows of unwanted chats are being deleted; `todo` holds the chats to come. */
  ghost predicate Pruned(before: TargetTable, targets: TargetTable, existing: map<RowId, RowId>, seen: set<RowId>,
                         todo: set<RowId>, r: RowId)
  {
    && (r in targets ==> r in before && targets[r] == before[r])
    && (r in before ==>
          (r !in targets <==> before[r].chat in existing.Keys - todo && existing[before[r].chat] == r && before[r].chat !in seen))
  }

  lemma PruneOneMore(before: TargetTable, targets: TargetTable, b: RowId, existing: map<RowId, RowId>, seen: set<RowId>,
                     todo: set<RowId>, c: RowId)
    requires ByChat(before, b, RowsOf(before, b), existing) && todo <= existing.Keys && c in todo
    requires forall r :: Pruned(before, targets, existing, seen, todo, r)
    ensures var targets' := if c in seen then targets else targets - {existing[c]};
      var rest := todo - {c};
      forall r :: Pruned(before, targets', existing, seen, rest, r)
  {
    var targets' := if c in seen then targets else targets - {existing[c]};
    var rest := todo - {c};
    forall r ensures Pruned(before, targets', existing, seen, rest, r) {
      assert Pruned(before, targets, existing, seen, todo, r);
    }
  }

  /** One row once the first `i` wanted chats have been given their positions. */
  ghost predicate ListedRow(before: TargetTable, targets: TargetTable, b: RowId, wanted: seq<RowId>, newIds: seq<RowId>,
                            now: Time, i: nat, r: RowId)
    requires |newIds| == |wanted|
  {
    && (r in before && before[r].ad != b ==> r in targets && targets[r] == before[r])
    && (r in before && before[r].ad == b && before[r].chat !in wanted ==> r !in targets)
    && (r in before && before[r].ad == b && before[r].chat in wanted ==>
          r in targets && targets[r] == if IndexOf(wanted, before[r].chat) < i
                                        then before[r].(position := IndexOf(wanted, before[r].chat)) else before[r])
    && (r !in before ==>
          (r in targets <==> exists k :: 0 <= k < i && k < |newIds| && newIds[k] == r && !HasRow(before, b, wanted[k])))
    && (forall k :: 0 <= k < i && k < |newIds| && newIds[k] == r && r !in before && r in targets ==>
          targets[r] == Target(b, wanted[k], k, Fresh(now)))
  }

  ghost predicate Listed(before: TargetTable, targets: TargetTable, b: RowId, existing: map<RowId, RowId>, wanted: seq<RowId>,
                         newIds: seq<RowId>, now: Time, i: nat)
  {
    && |newIds| == |wanted| && i <= |wanted|
    && (forall i, k :: 0 <= i < k < |wanted| ==> wanted[i] != wanted[k])
    && (forall i, k :: 0 <= i < k < |newIds| ==> newIds[i] != newIds[k])
    && (forall i :: 0 <= i < |newIds| ==> newIds[i] !in before)
    && ByChat(before, b, RowsOf(before, b), existing)
    && forall r :: ListedRow(before, targets, b, wanted, newIds, now, i, r)
  }

  lemma ListingStarts(before: TargetTable, targets: TargetTable, b: RowId, existing: map<RowId, RowId>, chats: seq<RowId>,
                      newIds: seq<RowId>, now: Time)
    requires |newIds| == |Distinct(chats)|
    requires forall i, k :: 0 <= i < k < |newIds| ==> newIds[i] != newIds[k]
    requires forall i :: 0 <= i < |newIds| ==> newIds[i] !in before
    requires ByChat(before, b, RowsOf(before, b), existing)
    requires forall r :: Pruned(before, targets, existing, Members(chats), {}, r)
    ensures Listed(before, targets, b, existing, Distinct(chats), newIds, now, 0)
  {
    var wanted := Distinct(chats);
    forall r ensures ListedRow(before, targets, b, wanted, newIds, now, 0, r) {
      assert Pruned(before, targets, existing, Members(chats), {}, r);
      if r in before && before[r].ad == b {
        assert r in RowsOf(before, b);
      }
    }
  }

  /** A chat has a row exactly when it is indexed. */
  lemma IndexedHasRow(before: TargetTable, b: RowId, existing: map<RowId, RowId>, c: RowId)
    requires ByChat(before, b, RowsOf(before, b), existing)
    ensures HasRow(before, b, c) <==> c in existing
  {
    if HasRow(before, b, c) {
      var r :| r in before && before[r].ad == b && before[r].chat == c;
      assert r in RowsOf(before, b);
    }
  }

  lemma IndexOfAt(s: seq<RowId>, i: nat)
    requires i < |s| && forall i, k :: 0 <= i < k < |s| ==> s[i] != s[k]
    ensures IndexOf(s, s[i]) == i
  {
  }

  lemma ListOneMore(before: TargetTable, targets: TargetTable, b: RowId, existing: map<RowId, RowId>, wanted: seq<RowId>,
                    newIds: seq<RowId>, now: Time, i: nat)
    requires Listed(before, targets, b, existing, wanted, newIds, now, i) && i < |wanted|
    ensures wanted[i] in existing ==> existing[wanted[i]] in targets
    ensures var targets' :=
        if wanted[i] in existing then targets[existing[wanted[i]] := targets[existing[wanted[i]]].(position := i)]
        else targets[newIds[i] := Target(b, wanted[i], i, Fresh(now))];
      Listed(before, targets', b, existing, wanted, newIds, now, i + 1)
  {
    IndexedHasRow(before, b, existing, wanted[i]);
    IndexOfAt(wanted, i);
    if wanted[i] in existing {
      assert ListedRow(before, targets, b, wanted, newIds, now, i, existing[wanted[i]]);
    }
    var targets' :=
      if wanted[i] in existing then targets[existing[wanted[i]] := targets[existing[wanted[i]]].(position := i)]
      else targets[newIds[i] := Target(b, wanted[i], i, Fresh(now))];
    var n := i + 1;
    forall r ensures ListedRow(before, targets', b, wanted, newIds, now, n, r) {
      assert ListedRow(before, targets, b, wanted, newIds, now, i, r);
      if r in before && before[r].ad == b {
        assert r in RowsOf(before, b);
      }
    }
  }

  lemma ListingEnds(before: TargetTable, targets: TargetTable, b: RowId, existing: map<RowId, RowId>, wanted: seq<RowId>,
                    newIds: seq<RowId>, now: Time)
    requires Listed(before, targets, b, existing, wanted, newIds, now, |wanted|)
    ensures targets == Selected(before, b, wanted, newIds, now)
  {
    var selected := Selected(before, b, wanted, newIds, now);
    forall r ensures (r in targets <==> r in selected) && (r in targets ==> targets[r] == selected[r]) {
      assert ListedRow(before, targets, b, wanted, newIds, now, |wanted|, r);
    }
  }

  // ------------------------------------------------------------------------
  // Reading in position order
  // ------------------------------------------------------------------------

  /** `order` lists all but `todo`, and everything still to come stands later. */
  ghost predicate Ordering(targets: TargetTable, rows: set<RowId>, todo: set<RowId>, order: seq<RowId>) {
    && todo <= rows && InOrder(targets, rows - todo, order)
    && forall i, r :: 0 <= i < |order| && r in todo && r in targets ==> targets[order[i]].position < targets[r].position
  }

  lemma OrderGrows(targets: TargetTable, rows: set<RowId>, todo: set<RowId>, order: seq<RowId>, r: RowId)
    requires forall r :: r in rows ==> r in targets
    requires forall r, u :: r in rows && u in rows && targets[r].position == targets[u].position ==> r == u
    requires Ordering(targets, rows, todo, order)
    requires r in todo && forall u :: u in todo ==> targets[r].position <= targets[u].position
    ensures Ordering(targets, rows, todo - {r}, order + [r])
  {
    forall u | u in rows - (todo - {r}) ensures u in order + [r] {
      if u != r {
        assert u in order;
      }
    }
  }

  lemma PlacesDiffer(targets: TargetTable, b: RowId)
    requires B.PlacesDistinct(targets)
    ensures forall r, u ::
      r in RowsOf(targets, b) && u in RowsOf(targets, b) && targets[r].position == targets[u].position ==> r == u
  {
    forall r, u | r in RowsOf(targets, b) && u in RowsOf(targets, b) && targets[r].position == targets[u].position
      ensures r == u
    {
      assert B.OwnPlace(targets, r, u);
    }
  }

  lemma InOrderSize(targets: TargetTable, rows: set<RowId>, order: seq<RowId>)
    requires InOrder(targets, rows, order)
    ensures |order| == |rows|
  {
    DistinctSize(order);
    assert Members(order) == rows;
  }

  // ------------------------------------------------------------------------
  // The two spacing loops
  // ------------------------------------------------------------------------

  function Retimed(l: Lease, slot: Time): Lease {
    l.(notBefore := slot)
  }

  function Restarted(l: Lease, slot: Time): Lease {
    Fresh(slot)
  }

  /** One row after the first `i` rows of `order` have been given their slots. */
  ghost predicate Placed(before: TargetTable, targets: TargetTable, rows: set<RowId>, delayMs: nat, start: Time,
                         put: (Lease, Time) -> Lease, i: nat, r: RowId)
  {
    && (r in targets <==> r in before)
    && (r in before ==>
          targets[r] == if r in rows && Rank(before, rows, r) < i
                        then before[r].(lease := put(before[r].lease, Slot(start, delayMs, Rank(before, rows, r))))
                        else before[r])
  }

  ghost predicate Spread(before: TargetTable, targets: TargetTable, rows: set<RowId>, order: seq<RowId>, delayMs: nat,
                         start: Time, put: (Lease, Time) -> Lease, i: nat)
  {
    && InOrder(before, rows, order) && i <= |order|
    && forall r :: Placed(before, targets, rows, delayMs, start, put, i, r)
  }

  lemma SpreadOn(before: TargetTable, targets: TargetTable, rows: set<RowId>, order: seq<RowId>, delayMs: nat,
                 start: Time, put: (Lease, Time) -> Lease, i: nat, slot: Time)
    requires Spread(before, targets, rows, order, delayMs, start, put, i) && i < |order|
    requires slot == Slot(start, delayMs, i)
    ensures order[i] in targets
    ensures Spread(before, targets[order[i] := targets[order[i]].(lease := put(targets[order[i]].lease, slot))],
                   rows, order, delayMs, start, put, i + 1)
  {
    assert Placed(before, targets, rows, delayMs, start, put, i, order[i]);
    IndexIsRank(before, rows, order, i);
    var targets' := targets[order[i] := targets[order[i]].(lease := put(targets[order[i]].lease, slot))];
    var n := i + 1;
    forall r ensures Placed(before, targets', rows, delayMs, start, put, n, r) {
      assert Placed(before, targets, rows, delayMs, start, put, i, r);
      if r in rows {
        var k :| 0 <= k < |order| && order[k] == r;
        IndexIsRank(before, rows, order, k);
      }
    }
  }

  /** When the loop is through, every listed row has its slot. */
  lemma SpreadDone(before: TargetTable, targets: TargetTable, rows: set<RowId>, order: seq<RowId>, delayMs: nat,
                   start: Time, put: (Lease, Time) -> Lease, r: RowId)
    requires Spread(before, targets, rows, order, delayMs, start, put, |order|)
    ensures r in targets <==> r in before
    ensures r in before ==>
      targets[r] == if r in rows then before[r].(lease := put(before[r].lease, Slot(start, delayMs, Rank(before, rows, r))))
                    else before[r]
  {
    assert Placed(before, targets, rows, delayMs, start, put, |order|, r);
    if r in rows {
      var k :| 0 <= k < |order| && order[k] == r;
      IndexIsRank(before, rows, order, k);
    }
  }

  lemma SpreadIsStaggered(before: TargetTable, targets: TargetTable, b: RowId, order: seq<RowId>, delayMs: nat, start: Time)
    requires Spread(before, targets, PendingOf(before, b), order, delayMs, start, Retimed, |order|)
    ensures targets == Staggered(before, b, delayMs, start)
  {
    forall r ensures (r in targets <==> r in before) && (r in before ==> targets[r] == Staggered(before, b, delayMs, start)[r]) {
      SpreadDone(before, targets, PendingOf(before, b), order, delayMs, start, Retimed, r);
    }
  }

  lemma SpreadIsReopened(before: TargetTable, targets: TargetTable, b: RowId, order: seq<RowId>, delayMs: nat, start: Time)
    requires Spread(before, targets, RowsOf(before, b), order, delayMs, start, Restarted, |order|)
    ensures targets == Reopened(before, b, delayMs, start)
  {
    forall r ensures (r in targets <==> r in before) && (r in before ==> targets[r] == Reopened(before, b, delayMs, start)[r]) {
      SpreadDone(before, targets, RowsOf(before, b), order, delayMs, start, Restarted, r);
    }
  }
}
