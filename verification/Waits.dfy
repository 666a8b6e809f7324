/** Waits that Telegram asked for, over whole runs. */
module Waits {
  import opened Types
  import opened Leases
  import opened Delivery
  import opened System
  import opened PausedRuns
  import F = Forwarding
  import FS = ForwardingSafety
  import B = Broadcasting
  import T = Broadcasts
  import Rounds

  // ------------------------------------------------------------------------
  // Forwarding jobs
  // ------------------------------------------------------------------------

  /** Until `until`, the job is not due and in nobody's hands, or it was cancelled. */
  ghost predicate JobWaits(f: F.Forward, now: Time, j: RowId, until: Time) {
    j in f.jobs && (now >= until
      || ((forall w :: F.Task(w, j) !in f.hands)
          && var l := f.jobs[j].lease; l.status == Skipped || (l.status == Pending && l.notBefore >= until)))
  }

  /** A rate limit is written down in full. */
  lemma RateLimitStartsWait(cfg: F.Config, now: Time, f: F.Forward, t: F.Task, backoff: Time, threshold: bool)
    requires F.Inv(cfg, f, now) && F.Enabled(cfg, now, f, F.Commit(t, backoff, threshold))
    requires f.hands[t].report.Refused? && f.hands[t].report.cls == RateLimit
    ensures var f' := F.Apply(cfg, now, f, F.Commit(t, backoff, threshold));
      JobWaits(f', now, t.job, now + WaitOf(f.hands[t].report))
  {
    forall w ensures F.Task(w, t.job) !in F.Apply(cfg, now, f, F.Commit(t, backoff, threshold)).hands {
      assert F.OneHolder(f.hands, t.job, w, t.worker);
      assert t == F.Task(t.worker, t.job);
    }
  }

  /** What one step can do to a row that nobody holds: claim it if it is due, return it to the queue
      if its lease has lapsed, cancel it, requeue it if it had failed, or leave it alone. */
  predicate FreeMove(l: Lease, m: Lease, now: Time) {
    || m == l || m == Cancelled(l)
    || (Requeueable(l) && m == Requeued(l, now))
    || (Lapsed(l, now) && m == Released(l))
    || (Claimable(l, now) && m.status == Leased && m.notBefore == l.notBefore)
  }

  ghost predicate JobFree(f: F.Forward, j: RowId) {
    j in f.jobs && forall w :: F.Task(w, j) !in f.hands
  }

  lemma FreeJobMoves(cfg: F.Config, now: Time, f: F.Forward, a: F.Action, j: RowId)
    requires F.Inv(cfg, f, now) && F.Enabled(cfg, now, f, a) && JobFree(f, j)
    ensures j in F.Apply(cfg, now, f, a).jobs
    ensures FreeMove(f.jobs[j].lease, F.Apply(cfg, now, f, a).jobs[j].lease, now)
  {
    if a.Dispatch? {
      FS.DispatchedAdds(cfg.keys, f.jobs, a.rule, f.rules[a.rule], a.source, a.ids, a.eligible, a.newIds, now, |a.newIds|);
    } else if a.Heartbeat? || a.Refuse? || a.Commit? {
      assert a.task == F.Task(a.task.worker, a.task.job);
    }
  }

  lemma FreeJobTaken(cfg: F.Config, now: Time, f: F.Forward, a: F.Action, j: RowId)
    requires F.Enabled(cfg, now, f, a) && JobFree(f, j)
    ensures Claimable(f.jobs[j].lease, now) || forall w :: F.Task(w, j) !in F.Apply(cfg, now, f, a).hands
  {
  }

  lemma JobStepWaits(cfg: F.Config, now: Time, f: F.Forward, a: F.Action, j: RowId, until: Time)
    requires F.Inv(cfg, f, now) && F.Enabled(cfg, now, f, a) && JobWaits(f, now, j, until)
    ensures JobWaits(F.Apply(cfg, now, f, a), now, j, until)
  {
    PausedRuns.JobsStayPut(cfg, now, f, a, j);
    if now < until {
      FreeJobMoves(cfg, now, f, a, j);
      FreeJobTaken(cfg, now, f, a, j);
    }
  }

  /** A waiting job's release time is never brought forward, or changed at all, while it waits. */
  lemma PendingTimeFixed(cfg: F.Config, now: Time, f: F.Forward, a: F.Action, j: RowId)
    requires F.Inv(cfg, f, now) && F.Enabled(cfg, now, f, a)
    requires j in f.jobs && f.jobs[j].lease.status == Pending
    ensures j in F.Apply(cfg, now, f, a).jobs
    ensures F.Apply(cfg, now, f, a).jobs[j].lease.notBefore == f.jobs[j].lease.notBefore
  {
    forall w ensures F.Task(w, j) !in f.hands {
      assert F.HandSound(f.jobs, f.hands, now, F.Task(w, j));
    }
    FreeJobMoves(cfg, now, f, a, j);
  }

  lemma SystemStepJobWaits(cfg: F.Config, s: State, a: Step, j: RowId, until: Time)
    requires Inv(cfg, s) && Enabled(cfg, s, a) && JobWaits(s.f, s.now, j, until)
    ensures JobWaits(Next(cfg, s, a).f, Next(cfg, s, a).now, j, until)
  {
    if a.JobStep? {
      JobStepWaits(cfg, s.now, s.f, a.job, j, until);
    }
  }

  /** Once a rate-limited job is rescheduled, no worker has it in hand, and so none sends it, before
      the full wait has passed, whatever anybody does, customers included. */
  lemma {:induction false} JobWaitObeyed(cfg: F.Config, states: seq<State>, steps: seq<Step>, j: RowId, until: Time, i: nat)
    requires cfg.settings.leaseTime >= 0 && IsRun(cfg, states, steps) && Inv(cfg, states[0])
    requires JobWaits(states[0].f, states[0].now, j, until) && i < |states|
    ensures JobWaits(states[i].f, states[i].now, j, until)
    ensures states[i].now < until ==> forall w :: F.Task(w, j) !in states[i].f.hands
  {
    if i > 0 {
      JobWaitObeyed(cfg, states, steps, j, until, i - 1);
      assert Follows(cfg, states, steps, i - 1);
      RunKeeps(cfg, states, steps, i - 1);
      SystemStepJobWaits(cfg, states[i - 1], steps[i - 1], j, until);
    }
  }

  // ------------------------------------------------------------------------
  // Broadcast targets
  // ------------------------------------------------------------------------

  /** The target is queued, not to be tried before `until`, and nobody has it in hand. */
  ghost predicate Parked(b: B.Board, r: RowId, until: Time) {
    && r in b.targets && !Rounds.InHand(b.hands, r)
    && b.targets[r].lease.status == Pending && b.targets[r].lease.notBefore >= until
  }

  /** A rate limit is written down in full, whatever the status of the ad. */
  lemma TargetRateLimitStartsWait(settings: Settings, now: Time, b: B.Board, t: B.Task, backoff: Time, seen: bool)
    requires B.Inv(settings, b, now) && B.Enabled(settings, now, b, B.Commit(t, backoff, seen))
    requires b.hands[t].report.Refused? && b.hands[t].report.cls == RateLimit
    ensures Parked(B.Apply(settings, now, b, B.Commit(t, backoff, seen)), t.target, now + WaitOf(b.hands[t].report))
  {
    forall w ensures B.Task(w, t.target) !in B.Apply(settings, now, b, B.Commit(t, backoff, seen)).hands {
      assert B.OneHolder(b.targets, b.hands, t.target, w, t.worker);
      assert t == B.Task(t.worker, t.target);
    }
  }

  // ------------------------------------------------------------------------
  // What shortens a wait
  // ------------------------------------------------------------------------

  /** The time that starting the ad now would give the waiting target. */
  function NewSlot(b: B.Board, now: Time, r: RowId): Time
    requires r in b.targets && b.targets[r].ad in b.ads
  {
    var k := b.targets[r].ad;
    T.Slot(now, b.ads[k].delayMs, T.Rank(b.targets, T.PendingOf(b.targets, k), r))
  }

  /** Starting a scheduled ad times every waiting target anew from that moment, whatever wait it was
      under: the wait survives exactly when the new time is not before its end. */
  lemma ScheduledStartRetimes(settings: Settings, now: Time, b: B.Board, r: RowId, until: Time)
    requires Parked(b, r, until)
    requires B.Enabled(settings, now, b, B.StartScheduled(b.targets[r].ad, true))
    ensures var b' := B.Apply(settings, now, b, B.StartScheduled(b.targets[r].ad, true));
      && b'.ads[b.targets[r].ad].status == T.AdSending
      && b'.targets[r].lease.notBefore == NewSlot(b, now, r)
      && (Parked(b', r, until) <==> NewSlot(b, now, r) >= until)
  {
    assert r in T.PendingOf(b.targets, b.targets[r].ad);
  }

  /** The first of the waiting targets is due at once. */
  lemma ScheduledStartForgetsWait(settings: Settings, now: Time, b: B.Board, r: RowId)
    requires r in b.targets && b.targets[r].lease.status == Pending
    requires B.Enabled(settings, now, b, B.StartScheduled(b.targets[r].ad, true))
    requires forall u :: u in T.PendingOf(b.targets, b.targets[r].ad) ==> b.targets[r].position <= b.targets[u].position
    ensures Claimable(B.Apply(settings, now, b, B.StartScheduled(b.targets[r].ad, true)).targets[r].lease, now)
  {
    var k := b.targets[r].ad;
    assert r in T.PendingOf(b.targets, k);
    assert T.Ahead(b.targets, T.PendingOf(b.targets, k), b.targets[r].position) == {};
  }

  /** The scheduler starts the target's ad, and its new time falls before `until`. */
  predicate Rushes(b: B.Board, now: Time, a: B.Action, r: RowId, until: Time) {
    && a.StartScheduled? && a.valid && r in b.targets && b.targets[r].ad == a.ad && a.ad in b.ads
    && NewSlot(b, now, r) < until
  }

  /** The step pauses the connection of the target, and so cancels it. */
  predicate Withdraws(b: B.Board, a: B.Action, r: RowId) {
    && r in b.targets && b.targets[r].ad in b.ads
    && var c := b.ads[b.targets[r].ad].conn; AdPauses(b, a, c) || (a.Withdraw? && a.conn == c)
  }

  lemma SettleParks(b: B.Board, k: RowId, seen: bool, now: Time, r: RowId, until: Time)
    requires k in b.ads && Parked(b, r, until)
    ensures Parked(B.Settled(b, k, seen, now), r, until)
  {
    if b.targets[r].ad == k {
      assert r in T.RemainingOf(b.targets, k);
    }
  }

  lemma CommitParks(settings: Settings, now: Time, b: B.Board, a: B.Action, r: RowId, until: Time)
    requires B.Enabled(settings, now, b, a) && a.Commit? && Parked(b, r, until) && b.targets[r].ad in b.ads
    ensures Parked(B.Apply(settings, now, b, a), r, until) <==> !Withdraws(b, a, r)
  {
    assert a.task == B.Task(a.task.worker, a.task.target);
    var w := B.Written(settings, b, a.task, a.backoff, now);
    assert Parked(w, r, until) <==> !Withdraws(b, a, r);
    if Parked(w, r, until) {
      SettleParks(w, b.targets[a.task.target].ad, a.seen, now, r, until);
    }
  }

  lemma RefuseParks(settings: Settings, now: Time, b: B.Board, a: B.Action, r: RowId, until: Time)
    requires B.Enabled(settings, now, b, a) && a.Refuse? && Parked(b, r, until)
    ensures Parked(B.Apply(settings, now, b, a), r, until)
  {
    assert a.task == B.Task(a.task.worker, a.task.target);
    assert Parked(B.Skip(b, a.task), r, until);
    SettleParks(B.Skip(b, a.task), b.targets[a.task.target].ad, a.seen, now, r, until);
  }

  /** Exactly two things end a wait before its time: a scheduled start that comes too early, and the
      pause of the connection, which cancels the target instead. */
  lemma WaitHolds(settings: Settings, now: Time, b: B.Board, a: B.Action, r: RowId, until: Time)
    requires B.Inv(settings, b, now) && B.Enabled(settings, now, b, a) && !B.ByCustomer(a)
    requires Parked(b, r, until) && now < until
    ensures Parked(B.Apply(settings, now, b, a), r, until) <==> !Rushes(b, now, a, r, until) && !Withdraws(b, a, r)
  {
    assert B.RowSound(b.ads, b.targets, r);
    if a.Commit? {
      CommitParks(settings, now, b, a, r, until);
    } else if a.Refuse? {
      RefuseParks(settings, now, b, a, r, until);
    } else {
      OtherStepParks(settings, now, b, a, r, until);
    }
  }

  lemma OtherStepParks(settings: Settings, now: Time, b: B.Board, a: B.Action, r: RowId, until: Time)
    requires B.Enabled(settings, now, b, a) && !B.ByCustomer(a) && !a.Commit? && !a.Refuse?
    requires Parked(b, r, until) && now < until && b.targets[r].ad in b.ads
    ensures Parked(B.Apply(settings, now, b, a), r, until) <==> !Rushes(b, now, a, r, until) && !Withdraws(b, a, r)
  {
    if a.Heartbeat? {
      assert a.task == B.Task(a.task.worker, a.task.target);
    } else if a.StartScheduled? && a.valid && a.ad == b.targets[r].ad {
      ScheduledStartRetimes(settings, now, b, r, until);
    } else {
      forall w ensures B.Task(w, r) !in B.Apply(settings, now, b, a).hands {
        if B.Task(w, r) in B.Apply(settings, now, b, a).hands {
          Rounds.HandsComeFromQueue(settings, now, b, a, B.Task(w, r));
        }
      }
    }
  }

  // ------------------------------------------------------------------------
  // Whole runs
  // ------------------------------------------------------------------------

  /** The step brings the target forward, or pauses its connection. */
  predicate Cuts(s: State, a: Step, r: RowId, until: Time) {
    || (a.AdStep? && Rushes(s.b, s.now, a.ad, r, until))
    || (r in s.b.targets && s.b.targets[r].ad in s.b.ads && Pauses(s, a, s.b.ads[s.b.targets[r].ad].conn))
  }

  lemma JobStepWaitHolds(cfg: F.Config, s: State, x: F.Action, r: RowId, until: Time)
    requires Enabled(cfg, s, JobStep(x)) && Parked(s.b, r, until) && s.b.targets[r].ad in s.b.ads
    ensures Parked(Next(cfg, s, JobStep(x)).b, r, until) <==> !Cuts(s, JobStep(x), r, until)
  {
  }

  lemma SystemWaitHolds(cfg: F.Config, s: State, a: Step, r: RowId, until: Time)
    requires Inv(cfg, s) && Enabled(cfg, s, a) && Automatic(a)
    requires Parked(s.b, r, until) && s.now < until
    ensures Parked(Next(cfg, s, a).b, r, until) <==> !Cuts(s, a, r, until)
  {
    assert B.RowSound(s.b.ads, s.b.targets, r);
    match a
    case AdStep(x) => WaitHolds(cfg.settings, s.now, s.b, x, r, until);
    case JobStep(x) => JobStepWaitHolds(cfg, s, x, r, until);
    case _ =>
  }

  /** Between customer actions, a rate-limited target is in no worker's hands before the full wait
      has passed, as long as no step cuts the wait short before it is over. */
  lemma {:induction false} TargetWaitObeyed(cfg: F.Config, states: seq<State>, steps: seq<Step>, r: RowId, until: Time, i: nat)
    requires IsAutomaticRun(cfg, states, steps) && Parked(states[0].b, r, until) && i < |states|
    requires forall k :: 0 <= k < |steps| && states[k].now < until ==> !Cuts(states[k], steps[k], r, until)
    ensures states[i].now < until ==> Parked(states[i].b, r, until) && !Rounds.InHand(states[i].b.hands, r)
  {
    if i > 0 && states[i].now < until {
      assert Follows(cfg, states, steps, i - 1);
      TargetWaitObeyed(cfg, states, steps, r, until, i - 1);
      RunKeeps(cfg, states, steps, i - 1);
      SystemWaitHolds(cfg, states[i - 1], steps[i - 1], r, until);
    }
  }
}
