/** Whole runs after a connection is paused. */
module PausedRuns {
  import opened Types
  import opened Leases
  import opened Delivery
  import opened System
  import opened Cascade
  import Rounds
  import F = Forwarding
  import FS = ForwardingSafety
  import B = Broadcasting
  import J = Jobs
  import T = Broadcasts

  // ------------------------------------------------------------------------
  // The pausing step
  // ------------------------------------------------------------------------

  lemma JobPauseQuiets(cfg: F.Config, now: Time, f: F.Forward, j: F.Action, c: ConnId)
    requires F.Inv(cfg, f, now) && F.Enabled(cfg, now, f, j) && JobPauses(f, j, c)
    ensures JobsQuiet(F.Apply(cfg, now, f, j).jobs, c) && RulesQuiet(F.Apply(cfg, now, f, j).rules, c)
  {
    CommitQuiet(cfg, now, f, j, c);
    WithdrawnRulesQuiet(f, c, c);
  }

  lemma AdPauseQuiets(settings: Settings, now: Time, b: B.Board, x: B.Action, c: ConnId)
    requires B.Enabled(settings, now, b, x) && AdPauses(b, x, c)
    ensures AdsQuiet(B.Apply(settings, now, b, x), c)
  {
    forall k ensures QuietOn(B.Apply(settings, now, b, x), c, k) {
      AdsStayPut(settings, now, b, x, k);
      if AdOnConn(b, k, c) {
        WrittenQuiet(settings, b, x.task, x.backoff, now, k);
      }
    }
  }

  /** One unauthorized report, from a job or from a target, leaves the connection paused, its rules
      inactive, and nothing of either kind waiting or leased on it. */
  lemma PauseQuiets(cfg: F.Config, s: State, a: Step, c: ConnId)
    requires Inv(cfg, s) && Enabled(cfg, s, a) && Pauses(s, a, c)
    ensures Quiet(Next(cfg, s, a), c) && IsPaused(Next(cfg, s, a), c)
  {
    if a.JobStep? {
      JobPauseQuiets(cfg, s.now, s.f, a.job, c);
      WithdrawnAdsQuiet(s.b, c, T.ConnectionLost, c);
    } else {
      AdPauseQuiets(cfg.settings, s.now, s.b, a.ad, c);
      WithdrawnJobsQuiet(s.f.jobs, c, c);
      WithdrawnRulesQuiet(s.f, c, c);
    }
  }

  // ------------------------------------------------------------------------
  // What is about to be sent
  // ------------------------------------------------------------------------

  predicate ArmedJob(f: F.Forward, c: ConnId, t: F.Task) {
    t in f.hands && f.hands[t].Armed? && t.job in f.jobs && f.jobs[t.job].conn == c
  }

  predicate ArmedTarget(b: B.Board, c: ConnId, t: B.Task) {
    t in b.hands && b.hands[t].Armed? && t.target in b.targets && AdOnConn(b, b.targets[t.target].ad, c)
  }

  /** The step hands a message of the connection to Telegram. */
  predicate SendsOn(s: State, a: Step, c: ConnId) {
    || (a.JobStep? && a.job.Send? && ArmedJob(s.f, c, a.job.task))
    || (a.AdStep? && a.ad.Send? && ArmedTarget(s.b, c, a.ad.task))
  }

  /** No message was made ready to send that had not been. */
  ghost predicate NoJobArmedSince(f: F.Forward, f': F.Forward, c: ConnId) {
    forall t :: ArmedJob(f', c, t) ==> ArmedJob(f, c, t)
  }

  ghost predicate NoTargetArmedSince(b: B.Board, b': B.Board, c: ConnId) {
    forall t :: ArmedTarget(b', c, t) ==> ArmedTarget(b, c, t)
  }

  ghost predicate JobPlace(f: F.Forward, f': F.Forward, j: RowId) {
    j in f.jobs ==> j in f'.jobs && f'.jobs[j].conn == f.jobs[j].conn
  }

  lemma JobsStayPut(cfg: F.Config, now: Time, f: F.Forward, a: F.Action, j: RowId)
    requires F.Inv(cfg, f, now) && F.Enabled(cfg, now, f, a)
    ensures JobPlace(f, F.Apply(cfg, now, f, a), j)
  {
    if a.Dispatch? {
      FS.DispatchedAdds(cfg.keys, f.jobs, a.rule, f.rules[a.rule], a.source, a.ids, a.eligible, a.newIds, now, |a.newIds|);
    }
  }

  lemma NoJobArmed(cfg: F.Config, now: Time, f: F.Forward, a: F.Action, c: ConnId, t: F.Task)
    requires F.Inv(cfg, f, now) && F.Enabled(cfg, now, f, a) && RulesQuiet(f.rules, c)
    requires ArmedJob(F.Apply(cfg, now, f, a), c, t)
    ensures ArmedJob(f, c, t)
  {
    JobsStayPut(cfg, now, f, a, t.job);
    assert F.HandSound(f.jobs, f.hands, now, t);
    if t in f.hands {
      assert F.RowSound(cfg, f.rules, f.jobs, t.job);
      assert RuleQuiet(f.rules, c, f.jobs[t.job].rule);
    }
  }

  ghost predicate TargetPlace(b: B.Board, b': B.Board, r: RowId) {
    (r in b.targets <==> r in b'.targets) && (r in b.targets ==> b'.targets[r].ad == b.targets[r].ad)
  }

  lemma TargetsStayPut(settings: Settings, now: Time, b: B.Board, a: B.Action, r: RowId)
    requires B.Enabled(settings, now, b, a) && !B.ByCustomer(a)
    ensures TargetPlace(b, B.Apply(settings, now, b, a), r)
  {
    if a.Commit? {
      var w := B.Written(settings, b, a.task, a.backoff, now);
      assert TargetPlace(b, w, r);
      assert TargetPlace(w, B.Settled(w, b.targets[a.task.target].ad, a.seen, now), r);
    }
  }

  lemma NoTargetArmed(settings: Settings, now: Time, b: B.Board, a: B.Action, c: ConnId, t: B.Task)
    requires B.Enabled(settings, now, b, a) && !B.ByCustomer(a)
    requires a.Load? && a.task.target in b.targets && AdOnConn(b, b.targets[a.task.target].ad, c) ==> !a.connActive
    requires ArmedTarget(B.Apply(settings, now, b, a), c, t)
    ensures ArmedTarget(b, c, t)
  {
    TargetsStayPut(settings, now, b, a, t.target);
    if t.target in b.targets {
      AdsStayPut(settings, now, b, a, b.targets[t.target].ad);
    }
  }

  lemma RulesStayShut(cfg: F.Config, s: State, a: Step, c: ConnId)
    requires Enabled(cfg, s, a) && Automatic(a) && RulesQuiet(s.f.rules, c)
    ensures RulesQuiet(Next(cfg, s, a).f.rules, c)
  {
    match a
    case JobStep(j) => RulesStayQuiet(cfg, s.now, s.f, j, c);
    case AdStep(x) =>
      if x.Commit? {
        WithdrawnRulesQuiet(s.f, s.b.ads[s.b.targets[x.task.target].ad].conn, c);
      }
    case _ =>
  }

  /** While no rule of the connection is active, no step gets a job of it ready to send. */
  lemma NoNewJobArmed(cfg: F.Config, s: State, a: Step, c: ConnId)
    requires Inv(cfg, s) && Enabled(cfg, s, a) && Automatic(a) && RulesQuiet(s.f.rules, c)
    ensures NoJobArmedSince(s.f, Next(cfg, s, a).f, c)
  {
    var f' := Next(cfg, s, a).f;
    forall t | ArmedJob(f', c, t) ensures ArmedJob(s.f, c, t) {
      if a.JobStep? {
        NoJobArmed(cfg, s.now, s.f, a.job, c, t);
      }
    }
  }

  /** While the connection is paused, no automatic step gets a target of it ready to send. */
  lemma NoNewTargetArmed(cfg: F.Config, s: State, a: Step, c: ConnId)
    requires Enabled(cfg, s, a) && Automatic(a) && IsPaused(s, c)
    ensures NoTargetArmedSince(s.b, Next(cfg, s, a).b, c)
  {
    var b' := Next(cfg, s, a).b;
    forall t | ArmedTarget(b', c, t) ensures ArmedTarget(s.b, c, t) {
      if a.AdStep? {
        NoTargetArmed(cfg.settings, s.now, s.b, a.ad, c, t);
      }
    }
  }

  // ------------------------------------------------------------------------
  // The pause itself
  // ------------------------------------------------------------------------

  predicate IsPaused(s: State, c: ConnId) {
    c in s.conns && s.conns[c] == PausedSafety
  }

  /** The health loop had loaded the connection before it was paused, and finds it changed since. */
  predicate Overwrites(s: State, a: Step, c: ConnId) {
    a.HealthCheck? && a.conn == c && c in s.checks && a.healthy == s.checks[c]
  }

  /** An automatic step leaves a paused connection paused exactly when it is no such check. */
  lemma PauseHolds(cfg: F.Config, s: State, a: Step, c: ConnId)
    requires Enabled(cfg, s, a) && Automatic(a) && IsPaused(s, c)
    ensures IsPaused(Next(cfg, s, a), c) <==> !Overwrites(s, a, c)
  {
  }

  /** A run in which nobody but the system itself acts, from a state that keeps the invariants. */
  ghost predicate IsAutomaticRun(cfg: F.Config, states: seq<State>, steps: seq<Step>) {
    && cfg.settings.leaseTime >= 0
    && IsRun(cfg, states, steps) && Inv(cfg, states[0])
    && forall i :: 0 <= i < |steps| ==> Automatic(steps[i])
  }

  lemma Prepended(cfg: F.Config, s: State, a: Step, states: seq<State>, steps: seq<Step>)
    requires cfg.settings.leaseTime >= 0 && Inv(cfg, s) && Enabled(cfg, s, a) && Automatic(a)
    requires IsAutomaticRun(cfg, states, steps) && states[0] == Next(cfg, s, a)
    ensures IsAutomaticRun(cfg, [s] + states, [a] + steps)
  {
    var states', steps' := [s] + states, [a] + steps;
    forall i: nat | i < |steps'| ensures Follows(cfg, states', steps', i) && Automatic(steps'[i]) {
      assert i > 0 ==> Follows(cfg, states, steps, i - 1);
    }
  }

  predicate Unchecked(s: State, c: ConnId) {
    IsPaused(s, c) && c !in s.checks
  }

  lemma {:induction false} UncheckedStaysPaused(cfg: F.Config, states: seq<State>, steps: seq<Step>, c: ConnId, i: nat)
    requires IsAutomaticRun(cfg, states, steps) && Unchecked(states[0], c) && i < |states|
    ensures Unchecked(states[i], c)
  {
    if i > 0 {
      UncheckedStaysPaused(cfg, states, steps, c, i - 1);
      assert Follows(cfg, states, steps, i - 1);
      PauseHolds(cfg, states[i - 1], steps[i - 1], c);
    }
  }

  ghost predicate StaysPaused(states: seq<State>, c: ConnId) {
    forall i :: 0 <= i < |states| ==> IsPaused(states[i], c)
  }

  /** A paused connection stays paused, whatever runs by itself, if and only if the health loop has
      not loaded it. */
  lemma PauseStaysExactly(cfg: F.Config, s: State, c: ConnId)
    requires cfg.settings.leaseTime >= 0 && Inv(cfg, s) && IsPaused(s, c)
    ensures (forall states, steps :: IsAutomaticRun(cfg, states, steps) && states[0] == s ==> StaysPaused(states, c))
       <==> c !in s.checks
  {
    if c !in s.checks {
      forall states, steps | IsAutomaticRun(cfg, states, steps) && states[0] == s ensures StaysPaused(states, c) {
        forall i | 0 <= i < |states| ensures IsPaused(states[i], c) {
          UncheckedStaysPaused(cfg, states, steps, c, i);
        }
      }
    } else {
      var a := HealthCheck(c, s.checks[c]);
      var states, steps := [s, Next(cfg, s, a)], [a];
      assert Follows(cfg, states, steps, 0) && Automatic(steps[0]);
      PauseHolds(cfg, s, a, c);
      assert IsAutomaticRun(cfg, states, steps) && !IsPaused(states[1], c);
    }
  }

  // ------------------------------------------------------------------------
  // Sends after the pause
  // ------------------------------------------------------------------------

  lemma {:induction false} JobsStayShut(cfg: F.Config, states: seq<State>, steps: seq<Step>, c: ConnId, i: nat)
    requires IsAutomaticRun(cfg, states, steps) && RulesQuiet(states[0].f.rules, c) && i < |states|
    ensures RulesQuiet(states[i].f.rules, c) && NoJobArmedSince(states[0].f, states[i].f, c)
  {
    if i > 0 {
      JobsStayShut(cfg, states, steps, c, i - 1);
      assert Follows(cfg, states, steps, i - 1);
      RunKeeps(cfg, states, steps, i - 1);
      RulesStayShut(cfg, states[i - 1], steps[i - 1], c);
      NoNewJobArmed(cfg, states[i - 1], steps[i - 1], c);
    }
  }

  lemma {:induction false} TargetsStayShut(cfg: F.Config, states: seq<State>, steps: seq<Step>, c: ConnId, i: nat)
    requires IsAutomaticRun(cfg, states, steps) && IsPaused(states[0], c) && i < |states|
    requires forall k :: 0 <= k < i ==> !Overwrites(states[k], steps[k], c)
    ensures IsPaused(states[i], c) && NoTargetArmedSince(states[0].b, states[i].b, c)
  {
    if i > 0 {
      TargetsStayShut(cfg, states, steps, c, i - 1);
      assert Follows(cfg, states, steps, i - 1);
      PauseHolds(cfg, states[i - 1], steps[i - 1], c);
      NoNewTargetArmed(cfg, states[i - 1], steps[i - 1], c);
    }
  }

  /** After the pause, whatever automatic steps follow, the only messages the connection can still
      send are those a worker was already about to send when the pause was committed: jobs in any
      case, since their rules stay inactive, and targets until the pause itself is overwritten. */
  lemma SendsAfterPause(cfg: F.Config, states: seq<State>, steps: seq<Step>, c: ConnId, i: nat)
    requires IsAutomaticRun(cfg, states, steps) && RulesQuiet(states[0].f.rules, c) && IsPaused(states[0], c)
    requires i < |steps| && SendsOn(states[i], steps[i], c)
    requires steps[i].AdStep? ==> forall k :: 0 <= k < i ==> !Overwrites(states[k], steps[k], c)
    ensures if steps[i].JobStep? then ArmedJob(states[0].f, c, steps[i].job.task)
            else steps[i].AdStep? && ArmedTarget(states[0].b, c, steps[i].ad.task)
  {
    if steps[i].JobStep? {
      JobsStayShut(cfg, states, steps, c, i);
    } else {
      TargetsStayShut(cfg, states, steps, c, i);
    }
  }
}
