/** Ads the customer has cancelled: when they stay so. */
module CancelledAds {
  import opened Types
  import opened Leases
  import opened Delivery
  import opened System
  import opened Cascade
  import opened PausedRuns
  import Rounds
  import F = Forwarding
  import B = Broadcasting
  import J = Jobs
  import T = Broadcasts

  // ------------------------------------------------------------------------
  // What undoes a cancellation, or a customer's pause
  // ------------------------------------------------------------------------

  /** Settling finishes the ad for good. */
  ghost predicate Completes(b: B.Board, k: RowId, seen: bool) {
    k in b.ads && seen && B.RoundOver(b, k) && !T.Repeats(b.ads[k])
  }

  /** A worker with a target of the ad in hand commits a long wait, which pauses the ad, or settles
      the last round by the status it saw when it loaded the target, which completes it. */
  ghost predicate Undoes(settings: Settings, now: Time, b: B.Board, a: B.Action, k: RowId)
    requires B.Enabled(settings, now, b, a)
  {
    match a
    case Commit(t, backoff, seen) =>
      && b.targets[t.target].ad == k
      && var d := B.DecisionFor(settings, b, t, backoff);
         || (d.pausesOwner && !d.pausesConnection)
         || (B.Settles(b.hands[t].report, d) && Completes(B.Written(settings, b, t, backoff, now), k, seen))
    case Refuse(t, seen) => b.targets[t.target].ad == k && Completes(B.Skip(b, t), k, seen)
    case _ => false
  }

  predicate IsCancelled(b: B.Board, k: RowId) {
    k in b.ads && b.ads[k].status == T.AdCancelled
  }

  lemma SettledHolds(b: B.Board, ad: RowId, seen: bool, now: Time, k: RowId)
    requires ad in b.ads && IsCancelled(b, k)
    ensures IsCancelled(B.Settled(b, ad, seen, now), k) <==> !(ad == k && Completes(b, k, seen))
  {
  }

  lemma CommitHolds(settings: Settings, now: Time, b: B.Board, a: B.Action, k: RowId)
    requires B.Enabled(settings, now, b, a) && a.Commit? && IsCancelled(b, k)
    ensures IsCancelled(B.Apply(settings, now, b, a), k) <==> !Undoes(settings, now, b, a, k)
  {
    var d := B.DecisionFor(settings, b, a.task, a.backoff);
    var w := B.Written(settings, b, a.task, a.backoff, now);
    assert IsCancelled(w, k) <==> !(b.targets[a.task.target].ad == k && d.pausesOwner && !d.pausesConnection);
    if IsCancelled(w, k) && B.Settles(b.hands[a.task].report, d) {
      SettledHolds(w, b.targets[a.task.target].ad, a.seen, now, k);
    }
  }

  /** An automatic step leaves a cancelled ad cancelled exactly when it is none of those. */
  lemma CancelHolds(settings: Settings, now: Time, b: B.Board, a: B.Action, k: RowId)
    requires B.Enabled(settings, now, b, a) && !B.ByCustomer(a) && IsCancelled(b, k)
    ensures IsCancelled(B.Apply(settings, now, b, a), k) <==> !Undoes(settings, now, b, a, k)
  {
    if a.Commit? {
      CommitHolds(settings, now, b, a, k);
    } else if a.Refuse? {
      SettledHolds(B.Skip(b, a.task), b.targets[a.task.target].ad, a.seen, now, k);
    }
  }

  /** Cancelled, with nothing waiting or leased. */
  ghost predicate Dormant(b: B.Board, k: RowId) {
    IsCancelled(b, k) && AdQuiet(b.targets, k)
  }

  lemma DormantHolds(settings: Settings, now: Time, b: B.Board, a: B.Action, k: RowId)
    requires B.Inv(settings, b, now) && B.Enabled(settings, now, b, a) && !B.ByCustomer(a) && Dormant(b, k)
    ensures Dormant(B.Apply(settings, now, b, a), k)
       <==> !Undoes(settings, now, b, a, k) && !AdRevives(settings, now, b, a, k)
  {
    CancelHolds(settings, now, b, a, k);
    AdStaysQuiet(settings, now, b, a, k);
  }

  // ------------------------------------------------------------------------
  // Workers that do no harm
  // ------------------------------------------------------------------------

  /** The worker has read nothing yet, or has read that the ad is not sending, or has a report to
      commit that neither asks for another try nor settles the round. */
  predicate Harmless(p: B.Phase) {
    || p.Held?
    || (p.Barred? && !p.wasSending)
    || (p.Sent? && (p.report.Ambiguous? || Unauthorized(p.report)))
  }

  predicate OnAd(b: B.Board, t: B.Task, k: RowId) {
    t in b.hands && t.target in b.targets && b.targets[t.target].ad == k
  }

  ghost predicate HarmlessOn(b: B.Board, k: RowId, t: B.Task) {
    OnAd(b, t, k) ==> Harmless(b.hands[t])
  }

  /** No worker that has a target of the ad in hand can do harm. */
  ghost predicate AllHarmless(b: B.Board, k: RowId) {
    forall t :: HarmlessOn(b, k, t)
  }

  ghost predicate Stopped(b: B.Board, k: RowId) {
    Dormant(b, k) && AllHarmless(b, k)
  }

  /** Cancelling makes the ad dormant, whoever has its targets in hand, and leaves their work as it
      was: the ad is stopped exactly when no worker could do harm. */
  lemma CancelStops(settings: Settings, now: Time, b: B.Board, k: RowId)
    requires k in b.ads
    ensures Dormant(B.Apply(settings, now, b, B.CancelAd(k)), k)
    ensures Stopped(B.Apply(settings, now, b, B.CancelAd(k)), k) <==> AllHarmless(b, k)
  {
    var b' := B.Apply(settings, now, b, B.CancelAd(k));
    forall r ensures TargetQuiet(b'.targets, k, r) {
    }
    forall t ensures HarmlessOn(b', k, t) <==> HarmlessOn(b, k, t) {
    }
  }

  lemma HandsStayHarmless(settings: Settings, now: Time, b: B.Board, a: B.Action, k: RowId)
    requires B.Enabled(settings, now, b, a) && !B.ByCustomer(a) && Stopped(b, k)
    ensures AllHarmless(B.Apply(settings, now, b, a), k)
  {
    var b' := B.Apply(settings, now, b, a);
    forall t ensures HarmlessOn(b', k, t) {
      if OnAd(b', t, k) {
        TargetsStayPut(settings, now, b, a, t.target);
        Rounds.HandsComeFromQueue(settings, now, b, a, t);
        assert TargetQuiet(b.targets, k, t.target) && HarmlessOn(b, k, t);
        PhaseMoves(settings, now, b, a, t);
      }
    }
  }

  /** A task that stays in hand keeps its phase unless it is taken anew, loaded, or sent. */
  lemma PhaseMoves(settings: Settings, now: Time, b: B.Board, a: B.Action, t: B.Task)
    requires B.Enabled(settings, now, b, a) && !B.ByCustomer(a)
    requires t in b.hands && t in B.Apply(settings, now, b, a).hands
    ensures B.Apply(settings, now, b, a).hands[t] == b.hands[t] || B.Apply(settings, now, b, a).hands[t].Held?
      || (a.Load? && a.task == t) || (a.Send? && a.task == t)
  {
  }

  lemma HarmlessKeepsDormant(settings: Settings, now: Time, b: B.Board, a: B.Action, k: RowId)
    requires B.Inv(settings, b, now) && B.Enabled(settings, now, b, a) && !B.ByCustomer(a) && Stopped(b, k)
    ensures Dormant(B.Apply(settings, now, b, a), k)
  {
    DormantHolds(settings, now, b, a, k);
    if (a.Commit? || a.Refuse?) && b.targets[a.task.target].ad == k {
      assert HarmlessOn(b, k, a.task);
    }
  }

  predicate SendsAd(b: B.Board, a: Step, k: RowId) {
    a.AdStep? && a.ad.Send? && a.ad.task in b.hands && a.ad.task.target in b.targets && b.targets[a.ad.task.target].ad == k
  }

  lemma StopStays(cfg: F.Config, s: State, a: Step, k: RowId)
    requires Inv(cfg, s) && Enabled(cfg, s, a) && Automatic(a) && Stopped(s.b, k)
    ensures Stopped(Next(cfg, s, a).b, k) && !SendsAd(s.b, a, k)
  {
    match a
    case JobStep(j) =>
      if j.Commit? {
        WithdrawnStops(s.b, s.f.jobs[j.task.job].conn, k);
      }
    case AdStep(x) =>
      HarmlessKeepsDormant(cfg.settings, s.now, s.b, x, k);
      HandsStayHarmless(cfg.settings, s.now, s.b, x, k);
      if x.Send? {
        assert HarmlessOn(s.b, k, x.task);
      }
    case _ =>
  }

  lemma WithdrawnStops(b: B.Board, c: ConnId, k: RowId)
    requires Stopped(b, k)
    ensures Stopped(B.Withdrawn(b, c, T.ConnectionLost), k)
  {
    WithdrawnTargetsQuiet(b.ads, b.targets, c, k);
    forall t ensures HarmlessOn(B.Withdrawn(b, c, T.ConnectionLost), k, t) {
      assert HarmlessOn(b, k, t);
    }
  }

  /** Stopped once, an ad stays cancelled and silent, whatever runs by itself. */
  lemma {:induction false} CancelledStaysSilent(cfg: F.Config, states: seq<State>, steps: seq<Step>, k: RowId, i: nat)
    requires IsAutomaticRun(cfg, states, steps) && Stopped(states[0].b, k) && i < |states|
    ensures Stopped(states[i].b, k)
    ensures i < |steps| ==> !SendsAd(states[i].b, steps[i], k)
  {
    if i > 0 {
      CancelledStaysSilent(cfg, states, steps, k, i - 1);
      assert Follows(cfg, states, steps, i - 1);
      RunKeeps(cfg, states, steps, i - 1);
      StopStays(cfg, states[i - 1], steps[i - 1], k);
    }
    if i < |steps| {
      assert Follows(cfg, states, steps, i);
      RunKeeps(cfg, states, steps, i);
      StopStays(cfg, states[i], steps[i], k);
    }
  }

  // ------------------------------------------------------------------------
  // Any other worker can
  // ------------------------------------------------------------------------

  lemma QuietIsOver(b: B.Board, k: RowId)
    requires AdQuiet(b.targets, k)
    ensures B.RoundOver(b, k)
  {
    forall r ensures r !in T.RemainingOf(b.targets, k) {
      assert TargetQuiet(b.targets, k, r);
    }
  }

  /** What a harmful worker does next. */
  function NextMove(b: B.Board, t: B.Task): B.Action
    requires t in b.hands && t.target in b.targets
  {
    match b.hands[t]
    case Armed => B.Send(t, Receipt)
    case Sent(_) => B.Commit(t, BackoffBase(b.targets[t.target].lease.attempts), true)
    case _ => B.Refuse(t, true)
  }

  ghost predicate Alone(b: B.Board, k: RowId, t: B.Task) {
    OnAd(b, t, k) && B.Unheld(b, k, Some(t))
  }

  lemma HarmfulMayMove(settings: Settings, now: Time, b: B.Board, k: RowId, t: B.Task)
    requires B.Inv(settings, b, now) && Dormant(b, k) && Alone(b, k, t) && !Harmless(b.hands[t])
    ensures B.Enabled(settings, now, b, NextMove(b, t))
  {
    assert B.RowSound(b.ads, b.targets, t.target) && B.Balances(b.targets, b.hands, b.tally, t.target);
  }

  lemma HarmfulRefusal(settings: Settings, now: Time, b: B.Board, k: RowId, t: B.Task)
    requires B.Enabled(settings, now, b, B.Refuse(t, true)) && Dormant(b, k) && OnAd(b, t, k)
    ensures Undoes(settings, now, b, B.Refuse(t, true), k) || AdRevives(settings, now, b, B.Refuse(t, true), k)
  {
    PutTargetQuiet(b.targets, k, t.target, Finished(b.targets[t.target].lease, Skipped));
    QuietIsOver(B.Skip(b, t), k);
  }

  lemma HarmfulCommit(settings: Settings, now: Time, b: B.Board, k: RowId, t: B.Task, backoff: Time)
    requires B.Enabled(settings, now, b, B.Commit(t, backoff, true)) && Dormant(b, k) && OnAd(b, t, k)
    requires !Harmless(b.hands[t])
    ensures Undoes(settings, now, b, B.Commit(t, backoff, true), k)
      || AdRevives(settings, now, b, B.Commit(t, backoff, true), k)
  {
    if !B.DecisionFor(settings, b, t, backoff).verdict.Again? {
      WrittenQuiet(settings, b, t, backoff, now, k);
      QuietIsOver(B.Written(settings, b, t, backoff, now), k);
    }
  }

  /** The next move of a harmful worker, alone on the ad, posts for it or wakes it. */
  lemma HarmfulMove(cfg: F.Config, s: State, k: RowId, t: B.Task)
    requires Inv(cfg, s) && Dormant(s.b, k) && Alone(s.b, k, t) && !Harmless(s.b.hands[t])
    ensures var a := AdStep(NextMove(s.b, t));
      && Enabled(cfg, s, a) && Automatic(a)
      && (SendsAd(s.b, a, k) || !Dormant(Next(cfg, s, a).b, k))
  {
    var x := NextMove(s.b, t);
    HarmfulMayMove(cfg.settings, s.now, s.b, k, t);
    if x.Refuse? {
      HarmfulRefusal(cfg.settings, s.now, s.b, k, t);
      DormantHolds(cfg.settings, s.now, s.b, x, k);
    } else if x.Commit? {
      HarmfulCommit(cfg.settings, s.now, s.b, k, t, x.backoff);
      DormantHolds(cfg.settings, s.now, s.b, x, k);
    }
  }

  ghost predicate SilentAt(states: seq<State>, steps: seq<Step>, k: RowId, i: nat)
    requires |states| == |steps| + 1
  {
    i < |states| ==> Dormant(states[i].b, k) && (i < |steps| ==> !SendsAd(states[i].b, steps[i], k))
  }

  /** Throughout the run the ad is cancelled, has nothing waiting or leased, and is not posted. */
  ghost predicate StaysSilent(states: seq<State>, steps: seq<Step>, k: RowId)
    requires |states| == |steps| + 1
  {
    forall i: nat :: SilentAt(states, steps, k, i)
  }

  function Others(b: B.Board, k: RowId, t: B.Task): set<B.Task> {
    set u | u in b.hands && OnAd(b, u, k) && u != t
  }

  lemma RunAfter(cfg: F.Config, s: State, a: Step, states: seq<State>, steps: seq<Step>, k: RowId)
    requires cfg.settings.leaseTime >= 0 && Inv(cfg, s) && Enabled(cfg, s, a) && Automatic(a)
    requires IsAutomaticRun(cfg, states, steps) && states[0] == Next(cfg, s, a)
    ensures IsAutomaticRun(cfg, [s] + states, [a] + steps)
    ensures !StaysSilent(states, steps, k) ==> !StaysSilent([s] + states, [a] + steps, k)
  {
    Prepended(cfg, s, a, states, steps);
    if !StaysSilent(states, steps, k) {
      var i: nat :| !SilentAt(states, steps, k, i);
      assert !SilentAt([s] + states, [a] + steps, k, i + 1);
    }
  }

  /** From a worker that can do harm, a run in which it does: the others crash, and then it moves on. */
  lemma HarmfulRun(cfg: F.Config, s: State, k: RowId, t: B.Task) returns (states: seq<State>, steps: seq<Step>)
    requires cfg.settings.leaseTime >= 0 && Inv(cfg, s) && Dormant(s.b, k)
    requires OnAd(s.b, t, k) && !Harmless(s.b.hands[t])
    ensures IsAutomaticRun(cfg, states, steps) && states[0] == s && !StaysSilent(states, steps, k)
    decreases |Others(s.b, k, t)|
  {
    var a: Step;
    if u :| u in Others(s.b, k, t) {
      a := AdStep(B.Crash(u));
      var s' := Next(cfg, s, a);
      StepKeeps(cfg, s, a);
      assert Others(s'.b, k, t) == Others(s.b, k, t) - {u};
      states, steps := HarmfulRun(cfg, s', k, t);
    } else {
      a := AdStep(NextMove(s.b, t));
      assert B.Unheld(s.b, k, Some(t)) by {
        forall u | u in s.b.hands && u.target in s.b.targets && s.b.targets[u.target].ad == k ensures u == t {
          assert u !in Others(s.b, k, t);
        }
      }
      HarmfulMove(cfg, s, k, t);
      StepKeeps(cfg, s, a);
      states, steps := [Next(cfg, s, a)], [];
      if SendsAd(s.b, a, k) {
        assert !SilentAt([s] + states, [a] + steps, k, 0);
      } else {
        assert !SilentAt(states, steps, k, 0);
      }
    }
    RunAfter(cfg, s, a, states, steps, k);
    states, steps := [s] + states, [a] + steps;
  }

  /** Which cancellations hold: whatever runs by itself, the ad stays cancelled and is never posted,
      if and only if no worker with one of its targets in hand can do harm. */
  lemma SilentExactly(cfg: F.Config, s: State, k: RowId)
    requires cfg.settings.leaseTime >= 0 && Inv(cfg, s) && Dormant(s.b, k)
    ensures (forall states, steps :: IsAutomaticRun(cfg, states, steps) && states[0] == s ==> StaysSilent(states, steps, k))
       <==> AllHarmless(s.b, k)
  {
    if AllHarmless(s.b, k) {
      forall states, steps | IsAutomaticRun(cfg, states, steps) && states[0] == s ensures StaysSilent(states, steps, k) {
        forall i: nat ensures SilentAt(states, steps, k, i) {
          if i < |states| {
            CancelledStaysSilent(cfg, states, steps, k, i);
          }
        }
      }
    } else {
      var t :| !HarmlessOn(s.b, k, t);
      var states, steps := HarmfulRun(cfg, s, k, t);
    }
  }
}
