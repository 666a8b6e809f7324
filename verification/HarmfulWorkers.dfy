/** What a worker can bring back on a quiet connection. */
module HarmfulWorkers {
  import opened Types
  import opened Leases
  import opened Delivery
  import opened System
  import opened Cascade
  import opened PausedRuns
  import opened QuietConnections
  import F = Forwarding
  import B = Broadcasting
  import J = Jobs
  import T = Broadcasts

  ghost predicate SilentAt(states: seq<State>, steps: seq<Step>, c: ConnId, i: nat)
    requires |states| == |steps| + 1
  {
    i < |states| ==> Quiet(states[i], c) && (i < |steps| ==> !SendsOn(states[i], steps[i], c))
  }

  /** Throughout the run no rule of the connection is active, nothing is queued on it or sent. */
  ghost predicate StaysSilent(states: seq<State>, steps: seq<Step>, c: ConnId)
    requires |states| == |steps| + 1
  {
    forall i: nat :: SilentAt(states, steps, c, i)
  }

  ghost predicate Breaks(cfg: F.Config, s: State, a: Step, c: ConnId) {
    Enabled(cfg, s, a) && Automatic(a) && (SendsOn(s, a, c) || !Quiet(Next(cfg, s, a), c))
  }

  lemma BreakingRun(cfg: F.Config, s: State, a: Step, c: ConnId)
    requires cfg.settings.leaseTime >= 0 && Inv(cfg, s) && Breaks(cfg, s, a, c)
    ensures IsAutomaticRun(cfg, [s, Next(cfg, s, a)], [a]) && !StaysSilent([s, Next(cfg, s, a)], [a], c)
  {
    var states := [s, Next(cfg, s, a)];
    assert Follows(cfg, states, [a], 0) && Automatic([a][0]);
    assert !SilentAt(states, [a], c, 0) || !SilentAt(states, [a], c, 1);
  }

  lemma BreakingLater(cfg: F.Config, s: State, a: Step, states: seq<State>, steps: seq<Step>, c: ConnId)
    requires cfg.settings.leaseTime >= 0 && Inv(cfg, s) && Enabled(cfg, s, a) && Automatic(a)
    requires IsAutomaticRun(cfg, states, steps) && states[0] == Next(cfg, s, a) && !StaysSilent(states, steps, c)
    ensures IsAutomaticRun(cfg, [s] + states, [a] + steps) && !StaysSilent([s] + states, [a] + steps, c)
  {
    Prepended(cfg, s, a, states, steps);
    var i: nat :| !SilentAt(states, steps, c, i);
    assert !SilentAt([s] + states, [a] + steps, c, i + 1);
  }

  // ------------------------------------------------------------------------
  // Jobs: one step
  // ------------------------------------------------------------------------

  function JobMove(f: F.Forward, t: F.Task): F.Action
    requires t in f.hands && t.job in f.jobs
  {
    if f.hands[t].Armed? then F.Send(t, false, Ambiguous)
    else F.Commit(t, BackoffBase(f.jobs[t.job].lease.attempts), false)
  }

  lemma JobMoves(cfg: F.Config, now: Time, f: F.Forward, c: ConnId, t: F.Task)
    requires F.Inv(cfg, f, now) && JobHarm(cfg, f, c, t)
    ensures F.Enabled(cfg, now, f, JobMove(f, t))
    ensures f.hands[t].Sent? ==> JobRevives(cfg, now, f, JobMove(f, t), c)
  {
    assert F.RowSound(cfg, f.rules, f.jobs, t.job) && F.Balances(f.jobs, f.hands, f.ledger, t.job);
  }

  lemma JobBreaks(cfg: F.Config, s: State, c: ConnId, t: F.Task)
    requires Inv(cfg, s) && Quiet(s, c) && JobHarm(cfg, s.f, c, t)
    ensures Breaks(cfg, s, JobStep(JobMove(s.f, t)), c)
  {
    JobMoves(cfg, s.now, s.f, c, t);
    CascadeHolds(cfg, s, JobStep(JobMove(s.f, t)), c);
  }

  // ------------------------------------------------------------------------
  // Targets: commits and refusals
  // ------------------------------------------------------------------------

  /** Nobody else has anything in hand. */
  ghost predicate Alone(s: State, t: B.Task) {
    s.f.hands == map[] && s.b.hands.Keys == {t}
  }

  ghost predicate Held(s: State, c: ConnId, t: B.Task) {
    Alone(s, t) && TargetOn(s.b, c, t) && Quiet(s, c)
  }

  lemma AdIsQuiet(s: State, c: ConnId, t: B.Task)
    requires Held(s, c, t)
    ensures AdQuiet(s.b.targets, s.b.targets[t.target].ad)
  {
    assert QuietOn(s.b, c, s.b.targets[t.target].ad);
  }

  lemma RefuseRevives(settings: Settings, now: Time, b: B.Board, t: B.Task)
    requires B.Enabled(settings, now, b, B.Refuse(t, true)) && AdQuiet(b.targets, b.targets[t.target].ad)
    requires T.Repeats(b.ads[b.targets[t.target].ad])
    ensures AdRevives(settings, now, b, B.Refuse(t, true), b.targets[t.target].ad)
  {
    var k := b.targets[t.target].ad;
    PutTargetQuiet(b.targets, k, t.target, Finished(b.targets[t.target].lease, Skipped));
    NothingPending(B.Skip(b, t).targets, k);
  }

  lemma RefuseBreaks(cfg: F.Config, s: State, c: ConnId, t: B.Task)
    requires Inv(cfg, s) && Held(s, c, t) && s.b.hands[t].Barred?
    requires T.Repeats(s.b.ads[s.b.targets[t.target].ad])
    requires s.b.hands[t].wasSending || s.b.ads[s.b.targets[t.target].ad].status == T.AdSending
    ensures Breaks(cfg, s, AdStep(B.Refuse(t, true)), c)
  {
    AdIsQuiet(s, c, t);
    RefuseRevives(cfg.settings, s.now, s.b, t);
    CascadeHolds(cfg, s, AdStep(B.Refuse(t, true)), c);
  }

  lemma CommitRevives(settings: Settings, now: Time, b: B.Board, t: B.Task, backoff: Time)
    requires B.Enabled(settings, now, b, B.Commit(t, backoff, true)) && AdQuiet(b.targets, b.targets[t.target].ad)
    requires Retries(b.hands[t].report, b.targets[t.target].lease.attempts, settings.maxAttempts)
      || (T.Repeats(b.ads[b.targets[t.target].ad]) && EndsRound(b.hands[t].report))
    ensures AdRevives(settings, now, b, B.Commit(t, backoff, true), b.targets[t.target].ad)
  {
    var k := b.targets[t.target].ad;
    RetriesExactly(b.hands[t].report, b.targets[t.target].lease.attempts, settings.maxAttempts, settings.floodPause, backoff);
    if !B.DecisionFor(settings, b, t, backoff).verdict.Again? {
      WrittenQuiet(settings, b, t, backoff, now, k);
      NothingPending(B.Written(settings, b, t, backoff, now).targets, k);
      SameRepeat(settings, now, b, B.Commit(t, backoff, true));
    }
  }

  lemma MayCommit(cfg: F.Config, s: State, c: ConnId, t: B.Task)
    requires Inv(cfg, s) && Held(s, c, t) && s.b.hands[t].Sent?
    ensures Enabled(cfg, s, AdStep(B.Commit(t, BackoffBase(s.b.targets[t.target].lease.attempts), true)))
  {
    assert B.Balances(s.b.targets, s.b.hands, s.b.tally, t.target);
  }

  lemma CommitBreaks(cfg: F.Config, s: State, c: ConnId, t: B.Task)
    requires Inv(cfg, s) && Held(s, c, t) && s.b.hands[t].Sent?
    requires TargetHarm(cfg.settings, s.b, MayBeUsable(s, c), c, t)
    ensures Breaks(cfg, s, AdStep(B.Commit(t, BackoffBase(s.b.targets[t.target].lease.attempts), true)), c)
  {
    var a := B.Commit(t, BackoffBase(s.b.targets[t.target].lease.attempts), true);
    AdIsQuiet(s, c, t);
    MayCommit(cfg, s, c, t);
    CommitRevives(cfg.settings, s.now, s.b, t, a.backoff);
    CascadeHolds(cfg, s, AdStep(a), c);
  }

  // ------------------------------------------------------------------------
  // Targets: what leads there
  // ------------------------------------------------------------------------

  function PhaseRank(p: B.Phase): nat {
    if p.Held? then 100 else if p.Barred? then 50 else 0
  }

  function AdRank(ad: T.Ad, now: Time): nat {
    if ad.status != T.AdScheduled then 0
    else if ad.scheduledFor.Some? && ad.scheduledFor.value > now then 20 else 10
  }

  function ConnRank(s: State, c: ConnId): nat {
    if Usable(s.conns, c) then 0
    else if c in s.checks then (if s.checks[c] then 1 else 3)
    else 2
  }

  /** How far the worker is from doing harm. */
  function Rank(s: State, c: ConnId, t: B.Task): nat
    requires TargetOn(s.b, c, t)
  {
    PhaseRank(s.b.hands[t]) + AdRank(s.b.ads[s.b.targets[t.target].ad], s.now) + ConnRank(s, c)
  }

  /** The worker can still do harm, and is closer to it. */
  ghost predicate Closer(cfg: F.Config, s: State, s': State, c: ConnId, t: B.Task) {
    && Alone(s', t) && TargetOn(s.b, c, t) && TargetHarm(cfg.settings, s'.b, MayBeUsable(s', c), c, t)
    && Rank(s', c, t) < Rank(s, c, t)
  }

  ghost predicate Leads(cfg: F.Config, s: State, a: Step, c: ConnId, t: B.Task) {
    Enabled(cfg, s, a) && Automatic(a) && Closer(cfg, s, Next(cfg, s, a), c, t)
  }

  function StartMove(s: State, k: RowId): Step
    requires k in s.b.ads && s.b.ads[k].scheduledFor.Some?
  {
    var at := s.b.ads[k].scheduledFor.value;
    if at <= s.now then AdStep(B.StartScheduled(k, true)) else Tick(at)
  }

  lemma TimeLeads(cfg: F.Config, s: State, c: ConnId, t: B.Task, at: Time)
    requires Inv(cfg, s) && Held(s, c, t) && TargetHarm(cfg.settings, s.b, MayBeUsable(s, c), c, t)
    requires s.b.ads[s.b.targets[t.target].ad].status == T.AdScheduled
    requires s.b.ads[s.b.targets[t.target].ad].scheduledFor == Some(at) && s.now < at
    ensures Leads(cfg, s, Tick(at), c, t)
  {
    AdIsQuiet(s, c, t);
    assert TargetQuiet(s.b.targets, s.b.targets[t.target].ad, t.target);
    assert B.HandSound(s.b.targets, s.b.hands, s.now, t) && B.RowSound(s.b.ads, s.b.targets, t.target);
  }

  lemma ScheduleLeads(cfg: F.Config, s: State, c: ConnId, t: B.Task)
    requires Held(s, c, t) && TargetHarm(cfg.settings, s.b, MayBeUsable(s, c), c, t)
    requires s.b.hands[t].Held? || s.b.hands[t].Barred?
    requires var ad := s.b.ads[s.b.targets[t.target].ad];
      ad.status == T.AdScheduled && ad.scheduledFor.Some? && ad.scheduledFor.value <= s.now
    ensures Leads(cfg, s, AdStep(B.StartScheduled(s.b.targets[t.target].ad, true)), c, t)
  {
  }

  lemma StartLeads(cfg: F.Config, s: State, c: ConnId, t: B.Task)
    requires Inv(cfg, s) && Held(s, c, t) && TargetHarm(cfg.settings, s.b, MayBeUsable(s, c), c, t)
    requires s.b.hands[t].Held? || s.b.hands[t].Barred?
    requires var ad := s.b.ads[s.b.targets[t.target].ad]; ad.status == T.AdScheduled && ad.scheduledFor.Some?
    ensures Leads(cfg, s, StartMove(s, s.b.targets[t.target].ad), c, t)
  {
    var at := s.b.ads[s.b.targets[t.target].ad].scheduledFor.value;
    if at <= s.now {
      ScheduleLeads(cfg, s, c, t);
    } else {
      TimeLeads(cfg, s, c, t, at);
    }
  }

  function LoadMove(s: State, c: ConnId, t: B.Task): Step {
    AdStep(B.Load(t, Usable(s.conns, c), Usable(s.conns, c)))
  }

  lemma LoadLeads(cfg: F.Config, s: State, c: ConnId, t: B.Task)
    requires Inv(cfg, s) && Held(s, c, t) && s.b.hands[t].Held?
    requires var ad := s.b.ads[s.b.targets[t.target].ad];
      ad.status == T.AdSending && (Usable(s.conns, c) || T.Repeats(ad))
    ensures Leads(cfg, s, LoadMove(s, c, t), c, t)
  {
  }

  function CheckMove(s: State, c: ConnId): Step {
    if c in s.checks then HealthCheck(c, s.checks[c]) else LoadChecks
  }

  lemma CheckLeads(cfg: F.Config, s: State, c: ConnId, t: B.Task)
    requires Inv(cfg, s) && Held(s, c, t) && TargetHarm(cfg.settings, s.b, MayBeUsable(s, c), c, t)
    requires !Usable(s.conns, c) && MayBeUsable(s, c)
    ensures Leads(cfg, s, CheckMove(s, c), c, t)
  {
  }

  /** The next step of a worker that can do harm, when nobody else has anything in hand. */
  function TargetMove(s: State, c: ConnId, t: B.Task): Step
    requires TargetOn(s.b, c, t)
  {
    var row := s.b.targets[t.target];
    var ad := s.b.ads[row.ad];
    match s.b.hands[t]
    case Armed => AdStep(B.Send(t, Receipt))
    case Sent(_) => AdStep(B.Commit(t, BackoffBase(row.lease.attempts), true))
    case Barred(wasSending) =>
      if wasSending || ad.status == T.AdSending || ad.scheduledFor.None? then AdStep(B.Refuse(t, true)) else StartMove(s, row.ad)
    case Held =>
      if ad.status == T.AdScheduled && ad.scheduledFor.Some? then StartMove(s, row.ad)
      else if Usable(s.conns, c) || T.Repeats(ad) then LoadMove(s, c, t)
      else CheckMove(s, c)
  }

  lemma TargetMoves(cfg: F.Config, s: State, c: ConnId, t: B.Task)
    requires Inv(cfg, s) && Held(s, c, t) && TargetHarm(cfg.settings, s.b, MayBeUsable(s, c), c, t)
    ensures Breaks(cfg, s, TargetMove(s, c, t), c) || Leads(cfg, s, TargetMove(s, c, t), c, t)
  {
    var ad := s.b.ads[s.b.targets[t.target].ad];
    match s.b.hands[t]
    case Armed =>
    case Sent(_) => CommitBreaks(cfg, s, c, t);
    case Barred(wasSending) =>
      if wasSending || ad.status == T.AdSending {
        RefuseBreaks(cfg, s, c, t);
      } else {
        StartLeads(cfg, s, c, t);
      }
    case Held =>
      if ad.status == T.AdScheduled {
        StartLeads(cfg, s, c, t);
      } else if Usable(s.conns, c) || T.Repeats(ad) {
        LoadLeads(cfg, s, c, t);
      } else {
        CheckLeads(cfg, s, c, t);
      }
  }

  // ------------------------------------------------------------------------
  // Whole runs
  // ------------------------------------------------------------------------

  lemma JobCrashLeaves(cfg: F.Config, s: State, u: F.Task, c: ConnId, t: B.Task)
    requires Inv(cfg, s) && u in s.f.hands && Quiet(s, c)
    requires TargetHarm(cfg.settings, s.b, MayBeUsable(s, c), c, t)
    ensures Enabled(cfg, s, JobStep(F.Crash(u)))
    ensures var s' := Next(cfg, s, JobStep(F.Crash(u)));
      && Quiet(s', c) && TargetHarm(cfg.settings, s'.b, MayBeUsable(s', c), c, t)
      && s'.f.hands.Keys == s.f.hands.Keys - {u} && s'.b == s.b
  {
    assert F.HandSound(s.f.jobs, s.f.hands, s.now, u) && F.Balances(s.f.jobs, s.f.hands, s.f.ledger, u.job);
    CascadeHolds(cfg, s, JobStep(F.Crash(u)), c);
  }

  lemma TargetCrashLeaves(cfg: F.Config, s: State, u: B.Task, c: ConnId, t: B.Task)
    requires Inv(cfg, s) && u in s.b.hands && u != t && Quiet(s, c)
    requires TargetHarm(cfg.settings, s.b, MayBeUsable(s, c), c, t)
    ensures Enabled(cfg, s, AdStep(B.Crash(u)))
    ensures var s' := Next(cfg, s, AdStep(B.Crash(u)));
      && Quiet(s', c) && TargetHarm(cfg.settings, s'.b, MayBeUsable(s', c), c, t)
      && s'.b.hands.Keys == s.b.hands.Keys - {u} && s'.f == s.f
  {
    CascadeHolds(cfg, s, AdStep(B.Crash(u)), c);
  }

  ghost predicate Endangered(cfg: F.Config, s: State, c: ConnId, t: B.Task) {
    Inv(cfg, s) && Quiet(s, c) && TargetHarm(cfg.settings, s.b, MayBeUsable(s, c), c, t)
  }

  /** How many steps at most the worker is from doing harm. */
  function Weight(s: State, c: ConnId, t: B.Task): nat
    requires TargetOn(s.b, c, t)
  {
    200 * (|s.f.hands.Keys| + |s.b.hands.Keys|) + Rank(s, c, t)
  }

  ghost predicate Onward(cfg: F.Config, s: State, a: Step, c: ConnId, t: B.Task)
    requires TargetOn(s.b, c, t)
  {
    Enabled(cfg, s, a) && Automatic(a) && Endangered(cfg, Next(cfg, s, a), c, t)
    && Weight(Next(cfg, s, a), c, t) < Weight(s, c, t)
  }

  lemma JobCrashOnward(cfg: F.Config, s: State, u: F.Task, c: ConnId, t: B.Task)
    requires cfg.settings.leaseTime >= 0 && Endangered(cfg, s, c, t) && u in s.f.hands
    ensures Onward(cfg, s, JobStep(F.Crash(u)), c, t)
  {
    JobCrashLeaves(cfg, s, u, c, t);
    StepKeeps(cfg, s, JobStep(F.Crash(u)));
  }

  lemma TargetCrashOnward(cfg: F.Config, s: State, u: B.Task, c: ConnId, t: B.Task)
    requires cfg.settings.leaseTime >= 0 && Endangered(cfg, s, c, t) && u in s.b.hands && u != t
    ensures Onward(cfg, s, AdStep(B.Crash(u)), c, t)
  {
    TargetCrashLeaves(cfg, s, u, c, t);
    StepKeeps(cfg, s, AdStep(B.Crash(u)));
  }

  lemma MoveOnward(cfg: F.Config, s: State, c: ConnId, t: B.Task)
    requires cfg.settings.leaseTime >= 0 && Endangered(cfg, s, c, t) && Alone(s, t)
    ensures var a := TargetMove(s, c, t); Breaks(cfg, s, a, c) || Onward(cfg, s, a, c, t)
  {
    TargetMoves(cfg, s, c, t);
    if !Breaks(cfg, s, TargetMove(s, c, t), c) {
      StepKeeps(cfg, s, TargetMove(s, c, t));
    }
  }

  /** The next step towards the harm: somebody else crashes, or the worker moves on. */
  lemma SomeMove(cfg: F.Config, s: State, c: ConnId, t: B.Task) returns (a: Step)
    requires cfg.settings.leaseTime >= 0 && Endangered(cfg, s, c, t)
    ensures Breaks(cfg, s, a, c) || Onward(cfg, s, a, c, t)
  {
    if u :| u in s.f.hands {
      a := JobStep(F.Crash(u));
      JobCrashOnward(cfg, s, u, c, t);
    } else if u :| u in s.b.hands && u != t {
      a := AdStep(B.Crash(u));
      TargetCrashOnward(cfg, s, u, c, t);
    } else {
      a := TargetMove(s, c, t);
      assert s.b.hands.Keys == {t};
      MoveOnward(cfg, s, c, t);
    }
  }

  /** From a worker that can do harm, a run in which it does: the others crash, and then it moves on. */
  lemma TargetHarmRun(cfg: F.Config, s: State, c: ConnId, t: B.Task) returns (states: seq<State>, steps: seq<Step>)
    requires cfg.settings.leaseTime >= 0 && Endangered(cfg, s, c, t)
    ensures IsAutomaticRun(cfg, states, steps) && states[0] == s && !StaysSilent(states, steps, c)
    decreases Weight(s, c, t)
  {
    var a := SomeMove(cfg, s, c, t);
    if Breaks(cfg, s, a, c) {
      BreakingRun(cfg, s, a, c);
      states, steps := [s, Next(cfg, s, a)], [a];
    } else {
      states, steps := TargetHarmRun(cfg, Next(cfg, s, a), c, t);
      BreakingLater(cfg, s, a, states, steps, c);
      states, steps := [s] + states, [a] + steps;
    }
  }

  /** Which pauses hold: whatever runs by itself, nothing is queued on the connection, activated or
      sent, if and only if no worker with its work in hand can do harm. */
  lemma SilentExactly(cfg: F.Config, s: State, c: ConnId)
    requires cfg.settings.leaseTime >= 0 && Inv(cfg, s) && Quiet(s, c)
    ensures (forall states, steps :: IsAutomaticRun(cfg, states, steps) && states[0] == s ==> StaysSilent(states, steps, c))
       <==> NoHarm(cfg, s, c)
  {
    if NoHarm(cfg, s, c) {
      forall states, steps | IsAutomaticRun(cfg, states, steps) && states[0] == s ensures StaysSilent(states, steps, c) {
        forall i: nat ensures SilentAt(states, steps, c, i) {
          if i < |states| {
            NothingComesBack(cfg, states, steps, c, i);
          }
        }
      }
    } else if !NoJobHarm(cfg, s.f, c) {
      var t :| JobHarm(cfg, s.f, c, t);
      JobBreaks(cfg, s, c, t);
      BreakingRun(cfg, s, JobStep(JobMove(s.f, t)), c);
    } else {
      var t :| TargetHarm(cfg.settings, s.b, MayBeUsable(s, c), c, t);
      var states, steps := TargetHarmRun(cfg, s, c, t);
    }
  }
}
