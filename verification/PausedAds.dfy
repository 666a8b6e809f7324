/** Ads the customer has paused: when they stay so. */
module PausedAds {
  import opened Types
  import opened Leases
  import opened Delivery
  import opened System
  import opened PausedRuns
  import opened QuietConnections
  import opened CancelledAds
  import opened Cascade
  import opened HarmfulWorkers
  import Rounds
  import F = Forwarding
  import B = Broadcasting
  import T = Broadcasts

  // ------------------------------------------------------------------------
  // One step
  // ------------------------------------------------------------------------

  /** Paused by the customer, or for editing. */
  predicate KeptPaused(b: B.Board, k: RowId) {
    k in b.ads && b.ads[k].status == T.AdPaused && (b.ads[k].reason == T.PausedByCustomer || b.ads[k].reason == T.BeingEdited)
  }

  lemma SettledKeeps(b: B.Board, ad: RowId, seen: bool, now: Time, k: RowId)
    requires ad in b.ads && KeptPaused(b, k)
    ensures KeptPaused(B.Settled(b, ad, seen, now), k) <==> !(ad == k && Completes(b, k, seen))
  {
  }

  lemma CommitKeepsPause(settings: Settings, now: Time, b: B.Board, a: B.Action, k: RowId)
    requires B.Enabled(settings, now, b, a) && a.Commit? && KeptPaused(b, k)
    ensures KeptPaused(B.Apply(settings, now, b, a), k) <==> !Undoes(settings, now, b, a, k)
  {
    var d := B.DecisionFor(settings, b, a.task, a.backoff);
    var w := B.Written(settings, b, a.task, a.backoff, now);
    assert KeptPaused(w, k) <==> !(b.targets[a.task.target].ad == k && d.pausesOwner && !d.pausesConnection);
    if KeptPaused(w, k) && B.Settles(b.hands[a.task].report, d) {
      SettledKeeps(w, b.targets[a.task.target].ad, a.seen, now, k);
    }
  }

  /** The customer's pause is undone by an automatic step in exactly the ways a cancellation is. */
  lemma PauseHolds(settings: Settings, now: Time, b: B.Board, a: B.Action, k: RowId)
    requires B.Enabled(settings, now, b, a) && !B.ByCustomer(a) && KeptPaused(b, k)
    ensures KeptPaused(B.Apply(settings, now, b, a), k) <==> !Undoes(settings, now, b, a, k)
  {
    if a.Commit? {
      CommitKeepsPause(settings, now, b, a, k);
    } else if a.Refuse? {
      SettledKeeps(B.Skip(b, a.task), b.targets[a.task.target].ad, a.seen, now, k);
    }
  }

  /** A rate limit that pauses the ad. */
  predicate LongWait(settings: Settings, r: Report) {
    r.Refused? && r.cls == RateLimit && WaitOf(r) >= settings.floodPause
  }

  // ------------------------------------------------------------------------
  // Silence over whole runs
  // ------------------------------------------------------------------------

  /** A worker about to post, or about to commit a long wait, would wake the ad. */
  predicate Wakes(settings: Settings, p: B.Phase) {
    p.Armed? || (p.Sent? && LongWait(settings, p.report))
  }

  predicate WakesOn(settings: Settings, b: B.Board, k: RowId, t: B.Task) {
    OnAd(b, t, k) && Wakes(settings, b.hands[t])
  }

  ghost predicate NoneWakes(settings: Settings, b: B.Board, k: RowId) {
    forall t :: !WakesOn(settings, b, k, t)
  }

  /** Still as the customer left it, or completed by a worker that settled its last round. */
  predicate Resting(b: B.Board, k: RowId) {
    KeptPaused(b, k) || (k in b.ads && b.ads[k].status == T.AdCompleted)
  }

  lemma SettledRests(b: B.Board, ad: RowId, seen: bool, now: Time, k: RowId)
    requires ad in b.ads && Resting(b, k)
    ensures Resting(B.Settled(b, ad, seen, now), k)
  {
  }

  lemma CommitRests(settings: Settings, now: Time, b: B.Board, a: B.Action, k: RowId)
    requires B.Enabled(settings, now, b, a) && a.Commit? && Resting(b, k) && !WakesOn(settings, b, k, a.task)
    ensures Resting(B.Apply(settings, now, b, a), k)
  {
    var w := B.Written(settings, b, a.task, a.backoff, now);
    assert Resting(w, k);
    SettledRests(w, b.targets[a.task.target].ad, a.seen, now, k);
  }

  lemma RestingStays(settings: Settings, now: Time, b: B.Board, a: B.Action, k: RowId)
    requires B.Enabled(settings, now, b, a) && !B.ByCustomer(a) && Resting(b, k) && NoneWakes(settings, b, k)
    ensures Resting(B.Apply(settings, now, b, a), k)
  {
    if a.Commit? {
      CommitRests(settings, now, b, a, k);
    } else if a.Refuse? {
      SettledRests(B.Skip(b, a.task), b.targets[a.task.target].ad, a.seen, now, k);
    }
  }

  lemma NoneWakesStays(settings: Settings, now: Time, b: B.Board, a: B.Action, k: RowId)
    requires B.Enabled(settings, now, b, a) && !B.ByCustomer(a) && Resting(b, k) && NoneWakes(settings, b, k)
    ensures NoneWakes(settings, B.Apply(settings, now, b, a), k)
  {
    var b' := B.Apply(settings, now, b, a);
    forall t ensures !WakesOn(settings, b', k, t) {
      assert !WakesOn(settings, b, k, t);
      if t in b'.hands {
        TargetsStayPut(settings, now, b, a, t.target);
        TargetPhaseMoves(settings, now, b, a, t);
      }
    }
  }

  ghost predicate Asleep(settings: Settings, b: B.Board, k: RowId) {
    Resting(b, k) && NoneWakes(settings, b, k)
  }

  lemma WithdrawnAsleep(settings: Settings, b: B.Board, c: ConnId, k: RowId)
    requires Asleep(settings, b, k)
    ensures Asleep(settings, B.Withdrawn(b, c, T.ConnectionLost), k)
  {
    forall t ensures !WakesOn(settings, B.Withdrawn(b, c, T.ConnectionLost), k, t) {
      assert !WakesOn(settings, b, k, t);
    }
  }

  lemma AsleepStays(cfg: F.Config, s: State, a: Step, k: RowId)
    requires Enabled(cfg, s, a) && Automatic(a) && Asleep(cfg.settings, s.b, k)
    ensures Asleep(cfg.settings, Next(cfg, s, a).b, k) && !SendsAd(s.b, a, k)
  {
    match a
    case JobStep(j) =>
      if j.Commit? {
        WithdrawnAsleep(cfg.settings, s.b, s.f.jobs[j.task.job].conn, k);
      }
    case AdStep(x) =>
      RestingStays(cfg.settings, s.now, s.b, x, k);
      NoneWakesStays(cfg.settings, s.now, s.b, x, k);
      if x.Send? {
        assert !WakesOn(cfg.settings, s.b, k, x.task);
      }
    case _ =>
  }

  ghost predicate ObeyedAt(states: seq<State>, steps: seq<Step>, k: RowId, i: nat)
    requires |states| == |steps| + 1
  {
    i < |states| ==>
      && !(k in states[i].b.ads && states[i].b.ads[k].status == T.AdSending)
      && (i < |steps| ==> !SendsAd(states[i].b, steps[i], k))
  }

  /** Throughout the run the ad is not set sending and not posted. */
  ghost predicate PauseObeyed(states: seq<State>, steps: seq<Step>, k: RowId)
    requires |states| == |steps| + 1
  {
    forall i: nat :: ObeyedAt(states, steps, k, i)
  }

  lemma {:induction false} AsleepThroughout(cfg: F.Config, states: seq<State>, steps: seq<Step>, k: RowId, i: nat)
    requires IsAutomaticRun(cfg, states, steps) && Asleep(cfg.settings, states[0].b, k) && i < |states|
    ensures Asleep(cfg.settings, states[i].b, k) && ObeyedAt(states, steps, k, i)
  {
    if i > 0 {
      AsleepThroughout(cfg, states, steps, k, i - 1);
      assert Follows(cfg, states, steps, i - 1);
      AsleepStays(cfg, states[i - 1], steps[i - 1], k);
    }
    if i < |steps| {
      assert Follows(cfg, states, steps, i);
      AsleepStays(cfg, states[i], steps[i], k);
    }
  }

  // ------------------------------------------------------------------------
  // A worker that wakes the ad
  // ------------------------------------------------------------------------

  lemma WokenLater(cfg: F.Config, s: State, a: Step, states: seq<State>, steps: seq<Step>, k: RowId)
    requires cfg.settings.leaseTime >= 0 && Inv(cfg, s) && Enabled(cfg, s, a) && Automatic(a)
    requires IsAutomaticRun(cfg, states, steps) && states[0] == Next(cfg, s, a) && !PauseObeyed(states, steps, k)
    ensures IsAutomaticRun(cfg, [s] + states, [a] + steps) && !PauseObeyed([s] + states, [a] + steps, k)
  {
    Prepended(cfg, s, a, states, steps);
    var i: nat :| !ObeyedAt(states, steps, k, i);
    assert !ObeyedAt([s] + states, [a] + steps, k, i + 1);
  }

  lemma PostRun(cfg: F.Config, s: State, k: RowId, t: B.Task) returns (states: seq<State>, steps: seq<Step>)
    requires cfg.settings.leaseTime >= 0 && Inv(cfg, s) && OnAd(s.b, t, k) && s.b.hands[t].Armed?
    ensures IsAutomaticRun(cfg, states, steps) && states[0] == s && !PauseObeyed(states, steps, k)
  {
    var a := AdStep(B.Send(t, Receipt));
    states, steps := [s, Next(cfg, s, a)], [a];
    assert Follows(cfg, states, steps, 0) && Automatic(steps[0]);
    assert !ObeyedAt(states, steps, k, 0);
  }

  /** The ad waits for a target that is due later, and nobody has anything in hand. */
  ghost predicate Flooded(s: State, k: RowId, r: RowId, due: Time) {
    && s.f.hands == map[] && s.b.hands == map[]
    && k in s.b.ads && s.b.ads[k].status == T.AdPaused && s.b.ads[k].reason == T.FloodWait
    && r in T.PendingOf(s.b.targets, k) && s.b.targets[r].lease.notBefore <= due
  }

  lemma FloodedStep(cfg: F.Config, s: State, k: RowId, r: RowId)
    requires Flooded(s, k, r, s.now)
    ensures Enabled(cfg, s, AdStep(B.FloodResume(k)))
    ensures k in Next(cfg, s, AdStep(B.FloodResume(k))).b.ads
    ensures Next(cfg, s, AdStep(B.FloodResume(k))).b.ads[k].status == T.AdSending
  {
  }

  lemma FloodedRun(cfg: F.Config, s: State, k: RowId, r: RowId, due: Time) returns (states: seq<State>, steps: seq<Step>)
    requires cfg.settings.leaseTime >= 0 && Inv(cfg, s) && Flooded(s, k, r, due)
    ensures IsAutomaticRun(cfg, states, steps) && states[0] == s && !PauseObeyed(states, steps, k)
    decreases due > s.now
  {
    if due > s.now {
      StepKeeps(cfg, s, Tick(due));
      states, steps := FloodedRun(cfg, Next(cfg, s, Tick(due)), k, r, due);
      WokenLater(cfg, s, Tick(due), states, steps, k);
      states, steps := [s] + states, [Tick(due)] + steps;
    } else {
      var a := AdStep(B.FloodResume(k));
      FloodedStep(cfg, s, k, r);
      states, steps := [s, Next(cfg, s, a)], [a];
      assert Follows(cfg, states, steps, 0) && Automatic(steps[0]);
      assert !ObeyedAt(states, steps, k, 1);
    }
  }

  /** A long wait queues the target again, not to be tried before the wait is over, and pauses its
      ad for the wait whatever the status of the ad was. */
  lemma FloodWaitPauses(settings: Settings, now: Time, b: B.Board, t: B.Task, backoff: Time, seen: bool)
    requires B.Enabled(settings, now, b, B.Commit(t, backoff, seen)) && LongWait(settings, b.hands[t].report)
    ensures var k := b.targets[t.target].ad;
      var b' := B.Apply(settings, now, b, B.Commit(t, backoff, seen));
      && k in b'.ads && b'.ads[k].status == T.AdPaused && b'.ads[k].reason == T.FloodWait
      && t.target in T.PendingOf(b'.targets, k) && b'.targets[t.target].lease.notBefore == now + WaitOf(b.hands[t].report)
      && b'.hands == b.hands - {t}
  {
  }

  lemma MayCommitWait(settings: Settings, now: Time, b: B.Board, k: RowId, t: B.Task)
    requires B.Inv(settings, b, now) && OnAd(b, t, k) && b.hands[t].Sent? && KeptPaused(b, k)
    ensures B.Enabled(settings, now, b, B.Commit(t, BackoffBase(b.targets[t.target].lease.attempts), false))
  {
    assert B.Balances(b.targets, b.hands, b.tally, t.target);
  }

  /** A worker is about to commit a long wait for the paused ad. */
  ghost predicate AboutToWait(cfg: F.Config, s: State, k: RowId, t: B.Task) {
    Inv(cfg, s) && KeptPaused(s.b, k) && OnAd(s.b, t, k) && s.b.hands[t].Sent? && LongWait(cfg.settings, s.b.hands[t].report)
  }

  lemma WaitFloods(cfg: F.Config, s: State, k: RowId, t: B.Task)
    requires AboutToWait(cfg, s, k, t) && HarmfulWorkers.Alone(s, t)
    ensures var a := AdStep(B.Commit(t, BackoffBase(s.b.targets[t.target].lease.attempts), false));
      Enabled(cfg, s, a) && Automatic(a)
      && Flooded(Next(cfg, s, a), k, t.target, s.now + WaitOf(s.b.hands[t].report))
  {
    MayCommitWait(cfg.settings, s.now, s.b, k, t);
    FloodWaitPauses(cfg.settings, s.now, s.b, t, BackoffBase(s.b.targets[t.target].lease.attempts), false);
  }

  // ------------------------------------------------------------------------
  // The others crash, and then it does
  // ------------------------------------------------------------------------

  function Size(s: State): nat {
    |s.f.hands.Keys| + |s.b.hands.Keys|
  }

  ghost predicate OneLess(cfg: F.Config, s: State, a: Step, k: RowId, t: B.Task) {
    && Enabled(cfg, s, a) && Automatic(a) && AboutToWait(cfg, Next(cfg, s, a), k, t)
    && Size(Next(cfg, s, a)) < Size(s)
  }

  lemma MayCrash(cfg: F.Config, s: State, u: F.Task)
    requires Inv(cfg, s) && u in s.f.hands
    ensures Enabled(cfg, s, JobStep(F.Crash(u)))
  {
    assert F.HandSound(s.f.jobs, s.f.hands, s.now, u) && F.Balances(s.f.jobs, s.f.hands, s.f.ledger, u.job);
  }

  lemma JobCrash(cfg: F.Config, s: State, u: F.Task, k: RowId, t: B.Task)
    requires cfg.settings.leaseTime >= 0 && AboutToWait(cfg, s, k, t)
    requires u in s.f.hands
    ensures OneLess(cfg, s, JobStep(F.Crash(u)), k, t)
  {
    MayCrash(cfg, s, u);
    var s' := Next(cfg, s, JobStep(F.Crash(u)));
    StepKeeps(cfg, s, JobStep(F.Crash(u)));
    assert s'.f.hands.Keys == s.f.hands.Keys - {u};
  }

  lemma TargetCrash(cfg: F.Config, s: State, u: B.Task, k: RowId, t: B.Task)
    requires cfg.settings.leaseTime >= 0 && AboutToWait(cfg, s, k, t)
    requires u in s.b.hands && u != t
    ensures OneLess(cfg, s, AdStep(B.Crash(u)), k, t)
  {
    var s' := Next(cfg, s, AdStep(B.Crash(u)));
    StepKeeps(cfg, s, AdStep(B.Crash(u)));
    assert s'.b.hands.Keys == s.b.hands.Keys - {u};
  }

  lemma LongWaitRun(cfg: F.Config, s: State, k: RowId, t: B.Task) returns (states: seq<State>, steps: seq<Step>)
    requires cfg.settings.leaseTime >= 0 && AboutToWait(cfg, s, k, t)
    ensures IsAutomaticRun(cfg, states, steps) && states[0] == s && !PauseObeyed(states, steps, k)
    decreases Size(s)
  {
    var a: Step;
    if u :| u in s.f.hands {
      a := JobStep(F.Crash(u));
      JobCrash(cfg, s, u, k, t);
      states, steps := LongWaitRun(cfg, Next(cfg, s, a), k, t);
    } else if u :| u in s.b.hands && u != t {
      a := AdStep(B.Crash(u));
      TargetCrash(cfg, s, u, k, t);
      states, steps := LongWaitRun(cfg, Next(cfg, s, a), k, t);
    } else {
      a := AdStep(B.Commit(t, BackoffBase(s.b.targets[t.target].lease.attempts), false));
      WaitFloods(cfg, s, k, t);
      StepKeeps(cfg, s, a);
      states, steps := FloodedRun(cfg, Next(cfg, s, a), k, t.target, s.now + WaitOf(s.b.hands[t].report));
    }
    WokenLater(cfg, s, a, states, steps, k);
    states, steps := [s] + states, [a] + steps;
  }

  /** Which pauses of the customer hold: whatever runs by itself, the ad is not set sending and not
      posted, if and only if no worker is about to post it or to commit a long wait for it. */
  lemma PauseObeyedExactly(cfg: F.Config, s: State, k: RowId)
    requires cfg.settings.leaseTime >= 0 && Inv(cfg, s) && KeptPaused(s.b, k)
    ensures (forall states, steps :: IsAutomaticRun(cfg, states, steps) && states[0] == s ==> PauseObeyed(states, steps, k))
       <==> NoneWakes(cfg.settings, s.b, k)
  {
    if NoneWakes(cfg.settings, s.b, k) {
      forall states, steps | IsAutomaticRun(cfg, states, steps) && states[0] == s ensures PauseObeyed(states, steps, k) {
        forall i: nat ensures ObeyedAt(states, steps, k, i) {
          if i < |states| {
            AsleepThroughout(cfg, states, steps, k, i);
          }
        }
      }
    } else {
      var t :| WakesOn(cfg.settings, s.b, k, t);
      var states, steps;
      if s.b.hands[t].Armed? {
        states, steps := PostRun(cfg, s, k, t);
      } else {
        states, steps := LongWaitRun(cfg, s, k, t);
      }
    }
  }

  // ------------------------------------------------------------------------
  // What is posted after the pause
  // ------------------------------------------------------------------------

  predicate ArmedOn(b: B.Board, k: RowId, t: B.Task) {
    OnAd(b, t, k) && b.hands[t].Armed?
  }

  predicate NotSending(b: B.Board, k: RowId) {
    !(k in b.ads && b.ads[k].status == T.AdSending)
  }

  lemma NothingArmedOn(cfg: F.Config, s: State, a: Step, k: RowId, t: B.Task)
    requires Enabled(cfg, s, a) && Automatic(a) && NotSending(s.b, k)
    ensures ArmedOn(Next(cfg, s, a).b, k, t) ==> ArmedOn(s.b, k, t)
  {
    if a.AdStep? {
      TargetsStayPut(cfg.settings, s.now, s.b, a.ad, t.target);
      if t in B.Apply(cfg.settings, s.now, s.b, a.ad).hands {
        TargetPhaseMoves(cfg.settings, s.now, s.b, a.ad, t);
      }
    }
  }

  lemma {:induction false} NothingArmedWhileNotSending(cfg: F.Config, states: seq<State>, steps: seq<Step>, k: RowId,
                                                       t: B.Task, i: nat)
    requires IsAutomaticRun(cfg, states, steps) && i < |states|
    requires forall j :: 0 <= j < i ==> NotSending(states[j].b, k)
    ensures ArmedOn(states[i].b, k, t) ==> ArmedOn(states[0].b, k, t)
  {
    if i > 0 {
      NothingArmedWhileNotSending(cfg, states, steps, k, t, i - 1);
      assert Follows(cfg, states, steps, i - 1);
      NothingArmedOn(cfg, states[i - 1], steps[i - 1], k, t);
    }
  }

  /** Step `i` posts the target in the worker's hands, and the ad was not resumed before. */
  ghost predicate PostsUnresumed(states: seq<State>, steps: seq<Step>, k: RowId, t: B.Task, i: nat) {
    && i < |steps| && |states| == |steps| + 1
    && steps[i].AdStep? && steps[i].ad.Send? && steps[i].ad.task == t && ArmedOn(states[i].b, k, t)
    && forall j :: 0 <= j <= i ==> NotSending(states[j].b, k)
  }

  /** Of the targets in hand when the customer pauses, those are still posted, unless the ad is
      resumed first, whose worker had already passed the guards, and no others. */
  lemma PostedExactly(cfg: F.Config, s: State, k: RowId, t: B.Task)
    requires cfg.settings.leaseTime >= 0 && Inv(cfg, s) && KeptPaused(s.b, k)
    ensures (exists states, steps, i ::
               IsAutomaticRun(cfg, states, steps) && states[0] == s && PostsUnresumed(states, steps, k, t, i))
       <==> ArmedOn(s.b, k, t)
  {
    if states, steps, i :| IsAutomaticRun(cfg, states, steps) && states[0] == s && PostsUnresumed(states, steps, k, t, i) {
      NothingArmedWhileNotSending(cfg, states, steps, k, t, i);
    }
    if ArmedOn(s.b, k, t) {
      var a := AdStep(B.Send(t, Receipt));
      PostedNow(cfg, s, k, t);
      assert PostsUnresumed([s, Next(cfg, s, a)], [a], k, t, 0);
    }
  }

  lemma PostedNow(cfg: F.Config, s: State, k: RowId, t: B.Task)
    requires cfg.settings.leaseTime >= 0 && Inv(cfg, s) && ArmedOn(s.b, k, t)
    ensures var a := AdStep(B.Send(t, Receipt));
      Enabled(cfg, s, a) && IsAutomaticRun(cfg, [s, Next(cfg, s, a)], [a])
  {
    var a := AdStep(B.Send(t, Receipt));
    assert Follows(cfg, [s, Next(cfg, s, a)], [a], 0) && Automatic([a][0]);
  }
}
