/** When a failed send is tried again. */
module Retries {
  import opened Types
  import opened Leases
  import opened Delivery
  import opened System
  import opened PausedRuns
  import opened Outcomes
  import opened Waits
  import JE = JobEffects
  import AE = AdEffects
  import F = Forwarding
  import B = Broadcasting
  import Rounds

  /** The report queues the row again: a rate limit always, a retry failure while attempts are left. */
  predicate TriesAgain(r: Report, attempts: nat, limit: nat) {
    r.Refused? && (r.cls == RateLimit || (RetryFailure(r) && attempts + 1 < limit))
  }

  /** How long it must wait at least: what Telegram asked for, or the backoff of its attempts. */
  function LeastWait(r: Report, attempts: nat): Time
    requires r.Refused?
  {
    if r.cls == RateLimit then (if r.wait.Some? then r.wait.value else 60_000_000) else LeastDelay(attempts)
  }

  // ------------------------------------------------------------------------
  // Jobs
  // ------------------------------------------------------------------------

  predicate JobTriesAgain(cfg: F.Config, f: F.Forward, t: F.Task) {
    && t in f.hands && f.hands[t].Sent? && t.job in f.jobs && f.jobs[t.job].rule in f.rules
    && TriesAgain(f.hands[t].report, f.jobs[t.job].lease.attempts, JE.AttemptLimit(f.rules[f.jobs[t.job].rule], cfg.settings))
  }

  lemma JobLetGo(cfg: F.Config, now: Time, f: F.Forward, t: F.Task, backoff: Time, tooMany: bool, w: WorkerId)
    requires F.Inv(cfg, f, now) && F.Enabled(cfg, now, f, F.Commit(t, backoff, tooMany))
    ensures F.Task(w, t.job) !in F.Apply(cfg, now, f, F.Commit(t, backoff, tooMany)).hands
  {
    assert F.OneHolder(f.hands, t.job, w, t.worker);
    assert t == F.Task(t.worker, t.job);
  }

  /** A job whose report asks for another try is pending, one attempt later, and due neither before the
      least wait nor, after a retry failure, later than 18 seconds from now. */
  lemma RetryStartsWait(cfg: F.Config, now: Time, f: F.Forward, t: F.Task, backoff: Time, tooMany: bool)
    requires F.Inv(cfg, f, now) && F.Enabled(cfg, now, f, F.Commit(t, backoff, tooMany)) && JobTriesAgain(cfg, f, t)
    ensures var f' := F.Apply(cfg, now, f, F.Commit(t, backoff, tooMany));
      var before, r := f.jobs[t.job].lease, f.hands[t].report;
      && t.job in f'.jobs
      && TriedAgain(before, f'.jobs[t.job].lease, now + LeastWait(r, before.attempts),
                    now + if r.cls == RateLimit then LeastWait(r, before.attempts) else 18_000_000)
      && JobWaits(f', now, t.job, now + LeastWait(r, before.attempts))
  {
    JE.CommitWrites(cfg, now, f, t, backoff, tooMany);
    forall w ensures F.Task(w, t.job) !in F.Apply(cfg, now, f, F.Commit(t, backoff, tooMany)).hands {
      JobLetGo(cfg, now, f, t, backoff, tooMany, w);
    }
  }

  ghost predicate JobWaitsAt(states: seq<State>, i: nat, j: RowId, until: Time)
    requires i < |states|
  {
    JobWaits(states[i].f, states[i].now, j, until)
  }

  lemma JobStillHeldOff(cfg: F.Config, states: seq<State>, steps: seq<Step>, j: RowId, until: Time, i: nat)
    requires cfg.settings.leaseTime >= 0 && IsRun(cfg, states, steps) && Inv(cfg, states[0]) && i < |steps|
    requires JobWaitsAt(states, i, j, until)
    ensures JobWaitsAt(states, i + 1, j, until)
  {
    assert Follows(cfg, states, steps, i);
    RunKeeps(cfg, states, steps, i);
    SystemStepJobWaits(cfg, states[i], steps[i], j, until);
  }

  lemma {:induction false} JobHeldOff(cfg: F.Config, states: seq<State>, steps: seq<Step>, j: RowId, until: Time, k: nat, i: nat)
    requires cfg.settings.leaseTime >= 0 && IsRun(cfg, states, steps) && Inv(cfg, states[0])
    requires k <= i < |states| && JobWaitsAt(states, k, j, until)
    ensures JobWaitsAt(states, i, j, until)
  {
    if k < i {
      JobHeldOff(cfg, states, steps, j, until, k, i - 1);
      JobStillHeldOff(cfg, states, steps, j, until, i - 1);
    }
  }

  /** From then on, whatever anybody does, nobody holds the job before that wait has passed. */
  lemma JobRetryObeyed(cfg: F.Config, states: seq<State>, steps: seq<Step>, k: nat, i: nat)
    requires cfg.settings.leaseTime >= 0 && IsRun(cfg, states, steps) && Inv(cfg, states[0]) && k < i < |states|
    requires steps[k].JobStep? && steps[k].job.Commit? && JobTriesAgain(cfg, states[k].f, steps[k].job.task)
    requires var t := steps[k].job.task;
      states[i].now < states[k].now + LeastWait(states[k].f.hands[t].report, states[k].f.jobs[t.job].lease.attempts)
    ensures forall w :: F.Task(w, steps[k].job.task.job) !in states[i].f.hands
  {
    var a := steps[k].job;
    var until := states[k].now + LeastWait(states[k].f.hands[a.task].report, states[k].f.jobs[a.task.job].lease.attempts);
    assert Follows(cfg, states, steps, k);
    RunKeeps(cfg, states, steps, k);
    RetryStartsWait(cfg, states[k].now, states[k].f, a.task, a.backoff, a.threshold);
    JobHeldOff(cfg, states, steps, a.task.job, until, k + 1, i);
  }

  // ------------------------------------------------------------------------
  // Targets
  // ------------------------------------------------------------------------

  predicate TargetTriesAgain(settings: Settings, b: B.Board, t: B.Task) {
    && t in b.hands && b.hands[t].Sent? && t.target in b.targets
    && TriesAgain(b.hands[t].report, b.targets[t.target].lease.attempts, settings.maxAttempts)
  }

  lemma TargetLetGo(settings: Settings, now: Time, b: B.Board, t: B.Task, backoff: Time, seen: bool, w: WorkerId)
    requires B.Inv(settings, b, now) && B.Enabled(settings, now, b, B.Commit(t, backoff, seen))
    ensures B.Task(w, t.target) !in B.Apply(settings, now, b, B.Commit(t, backoff, seen)).hands
  {
    assert B.OneHolder(b.targets, b.hands, t.target, w, t.worker);
    assert t == B.Task(t.worker, t.target);
  }

  /** The same for a target; no round ends with such a report. */
  lemma TargetRetryStartsWait(settings: Settings, now: Time, b: B.Board, t: B.Task, backoff: Time, seen: bool)
    requires B.Inv(settings, b, now) && B.Enabled(settings, now, b, B.Commit(t, backoff, seen)) && TargetTriesAgain(settings, b, t)
    ensures var b' := B.Apply(settings, now, b, B.Commit(t, backoff, seen));
      var before, r := b.targets[t.target].lease, b.hands[t].report;
      && t.target in b'.targets
      && TriedAgain(before, b'.targets[t.target].lease, now + LeastWait(r, before.attempts),
                    now + if r.cls == RateLimit then LeastWait(r, before.attempts) else 18_000_000)
      && Parked(b', t.target, now + LeastWait(r, before.attempts))
  {
    AE.CommitWrites(settings, now, b, t, backoff, seen);
    forall w ensures B.Task(w, t.target) !in B.Apply(settings, now, b, B.Commit(t, backoff, seen)).hands {
      TargetLetGo(settings, now, b, t, backoff, seen, w);
    }
  }

  /** Between customer actions, and as long as no step cuts the wait short. */
  ghost predicate Uncut(states: seq<State>, steps: seq<Step>, r: RowId, until: Time, k: nat)
    requires |states| == |steps| + 1 && k < |steps|
  {
    Automatic(steps[k]) && (states[k].now < until ==> !Cuts(states[k], steps[k], r, until))
  }

  lemma {:induction false} TargetHeldOff(cfg: F.Config, states: seq<State>, steps: seq<Step>, r: RowId, until: Time, k: nat, i: nat)
    requires cfg.settings.leaseTime >= 0 && IsRun(cfg, states, steps) && Inv(cfg, states[0])
    requires k <= i < |states| && Parked(states[k].b, r, until)
    requires forall m :: k <= m < i ==> Uncut(states, steps, r, until, m)
    ensures states[i].now < until ==> Parked(states[i].b, r, until)
  {
    if k < i && states[i].now < until {
      assert Follows(cfg, states, steps, i - 1) && Uncut(states, steps, r, until, i - 1);
      TargetHeldOff(cfg, states, steps, r, until, k, i - 1);
      RunKeeps(cfg, states, steps, i - 1);
      SystemWaitHolds(cfg, states[i - 1], steps[i - 1], r, until);
    }
  }

  /** The end of the wait that committing the task starts. */
  function WaitEnd(settings: Settings, b: B.Board, t: B.Task, now: Time): Time
    requires TargetTriesAgain(settings, b, t)
  {
    now + LeastWait(b.hands[t].report, b.targets[t.target].lease.attempts)
  }

  lemma CommitParksTarget(cfg: F.Config, states: seq<State>, steps: seq<Step>, k: nat)
    requires cfg.settings.leaseTime >= 0 && IsRun(cfg, states, steps) && Inv(cfg, states[0]) && k < |steps|
    requires steps[k].AdStep? && steps[k].ad.Commit? && TargetTriesAgain(cfg.settings, states[k].b, steps[k].ad.task)
    ensures var t := steps[k].ad.task; Parked(states[k + 1].b, t.target, WaitEnd(cfg.settings, states[k].b, t, states[k].now))
  {
    var a := steps[k].ad;
    assert Follows(cfg, states, steps, k);
    RunKeeps(cfg, states, steps, k);
    TargetRetryStartsWait(cfg.settings, states[k].now, states[k].b, a.task, a.backoff, a.seen);
  }

  /** Nobody holds the target before its wait has passed. */
  lemma TargetRetryObeyed(cfg: F.Config, states: seq<State>, steps: seq<Step>, k: nat, i: nat)
    requires cfg.settings.leaseTime >= 0 && IsRun(cfg, states, steps) && Inv(cfg, states[0]) && k < i < |states|
    requires steps[k].AdStep? && steps[k].ad.Commit? && TargetTriesAgain(cfg.settings, states[k].b, steps[k].ad.task)
    requires var t := steps[k].ad.task;
      var until := WaitEnd(cfg.settings, states[k].b, t, states[k].now);
      states[i].now < until && forall m :: k < m < i ==> Uncut(states, steps, t.target, until, m)
    ensures !Rounds.InHand(states[i].b.hands, steps[k].ad.task.target)
  {
    var t := steps[k].ad.task;
    CommitParksTarget(cfg, states, steps, k);
    TargetHeldOff(cfg, states, steps, t.target, WaitEnd(cfg.settings, states[k].b, t, states[k].now), k + 1, i);
  }
}
