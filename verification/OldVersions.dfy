/** Jobs queued before their rule was edited. */
module OldVersions {
  import opened Types
  import opened System
  import F = Forwarding
  import J = Jobs
  import JE = JobEffects
  import QuietConnections

  predicate ArmedJob(f: F.Forward, t: F.Task) {
    t in f.hands && f.hands[t].Armed?
  }

  predicate Known(f: F.Forward, t: F.Task) {
    t.job in f.jobs && f.jobs[t.job].rule in f.rules
  }

  /** The job was queued under another version than the rule's current one. */
  predicate Outdated(f: F.Forward, t: F.Task)
    requires Known(f, t)
  {
    f.jobs[t.job].version != f.rules[f.jobs[t.job].rule].version
  }

  /** The edited rule would not let it through: it has a keyword filter, or its destination is gone. */
  predicate Excluded(f: F.Forward, t: F.Task) {
    && Known(f, t) && Outdated(f, t)
    && var rule := f.rules[f.jobs[t.job].rule]; rule.keywords || f.jobs[t.job].dest !in rule.dests
  }

  lemma ArmedByAction(cfg: F.Config, now: Time, f: F.Forward, a: F.Action, t: F.Task)
    requires F.Enabled(cfg, now, f, a) && ArmedJob(F.Apply(cfg, now, f, a), t) && !ArmedJob(f, t)
    ensures a == F.Arm(t)
  {
    QuietConnections.JobPhaseMoves(cfg, now, f, a, t);
    SendLeavesSent(cfg, now, f, a);
  }

  lemma SendLeavesSent(cfg: F.Config, now: Time, f: F.Forward, a: F.Action)
    requires F.Enabled(cfg, now, f, a)
    ensures a.Send? ==> !ArmedJob(F.Apply(cfg, now, f, a), a.task)
  {
  }

  lemma ArmedByStep(cfg: F.Config, s: State, a: Step, t: F.Task)
    requires Enabled(cfg, s, a) && ArmedJob(Next(cfg, s, a).f, t) && !ArmedJob(s.f, t)
    ensures a == JobStep(F.Arm(t))
  {
    if a.JobStep? {
      ArmedByAction(cfg, s.now, s.f, a.job, t);
    }
  }

  /** Whenever a step of a run makes a job ready to send, its rule is active at that moment, and if the
      rule was edited since the job was queued, it still lists the destination and has no keyword filter. */
  lemma ArmedOnlyIfWanted(cfg: F.Config, states: seq<State>, steps: seq<Step>, i: nat, t: F.Task)
    requires IsRun(cfg, states, steps) && i < |steps|
    requires ArmedJob(states[i + 1].f, t) && !ArmedJob(states[i].f, t)
    ensures var f := states[i].f;
      && Known(f, t) && f.rules[f.jobs[t.job].rule].status == J.RuleActive
      && (Outdated(f, t) ==> f.jobs[t.job].dest in f.rules[f.jobs[t.job].rule].dests && !f.rules[f.jobs[t.job].rule].keywords)
  {
    assert Follows(cfg, states, steps, i);
    ArmedByStep(cfg, states[i], steps[i], t);
    JE.GuardsHold(cfg, states[i].now, states[i].f, t);
  }

  /** While the edited rule excludes the job, nothing makes it ready to send that was not ready before. */
  lemma {:induction false} ExcludedStaysUnsent(cfg: F.Config, states: seq<State>, steps: seq<Step>, k: nat, i: nat, t: F.Task)
    requires IsRun(cfg, states, steps) && k <= i < |states|
    requires forall m :: k <= m < i ==> Excluded(states[m].f, t)
    ensures ArmedJob(states[i].f, t) ==> ArmedJob(states[k].f, t)
  {
    if k < i {
      ExcludedStaysUnsent(cfg, states, steps, k, i - 1, t);
      assert Excluded(states[i - 1].f, t);
      if ArmedJob(states[i].f, t) && !ArmedJob(states[i - 1].f, t) {
        ArmedOnlyIfWanted(cfg, states, steps, i - 1, t);
      }
    }
  }
}
