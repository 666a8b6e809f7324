/** A long wait overrides the customer: one commit, and whole runs from an empty store
    (backend/app/services/broadcast.py, backend/app/repositories/broadcasts.py). */
module FloodWaits {
  import opened Types
  import opened Leases
  import opened Delivery
  import opened System
  import opened Cascade
  import opened CancelledAds
  import opened PausedAds
  import opened Episodes
  import F = Forwarding
  import B = Broadcasting
  import T = Broadcasts

  // ------------------------------------------------------------------------
  // One commit
  // ------------------------------------------------------------------------

  /** Once the wait is over the scheduler may resume the ad, although the customer had cancelled or
      paused it. */
  lemma FloodWaitResumes(settings: Settings, now: Time, b: B.Board, t: B.Task, backoff: Time, seen: bool, later: Time)
    requires B.Enabled(settings, now, b, B.Commit(t, backoff, seen)) && LongWait(settings, b.hands[t].report)
    requires later >= now + WaitOf(b.hands[t].report)
    ensures var k := b.targets[t.target].ad;
      var b' := B.Apply(settings, now, b, B.Commit(t, backoff, seen));
      && !IsCancelled(b', k) && !KeptPaused(b', k) && !AdQuiet(b'.targets, k)
      && B.Enabled(settings, later, b', B.FloodResume(k))
      && B.Apply(settings, later, b', B.FloodResume(k)).ads[k].status == T.AdSending
  {
    FloodWaitPauses(settings, now, b, t, backoff, seen);
    var k := b.targets[t.target].ad;
    var b' := B.Apply(settings, now, b, B.Commit(t, backoff, seen));
    assert !TargetQuiet(b'.targets, k, t.target);
  }

  // ------------------------------------------------------------------------
  // A cancelled ad, and a paused one, that send again
  // ------------------------------------------------------------------------

  /** The ad after the customer has cancelled or paused it under the worker. */
  function Stopping(c: ConnId, cancels: bool): T.Ad {
    if cancels then SendingAd(c).(status := T.AdCancelled)
    else SendingAd(c).(status := T.AdPaused, reason := T.PausedByCustomer)
  }

  function StopMove(cancels: bool): B.Action {
    if cancels then B.CancelAd(AD) else B.PauseAd(AD, T.PausedByCustomer)
  }

  ghost function StoppedBoard(settings: Settings, c: ConnId, cancels: bool): B.Board {
    One(Stopping(c, cancels), if cancels then Lease(Skipped, 0, 0, None, None) else LeasedRow(settings),
        map[TASK := B.Sent(LongWaitReport(settings))])
  }

  lemma Stops(settings: Settings, c: ConnId, cancels: bool)
    ensures Leads(settings, 0, Prefix(settings, c, LongWaitReport(settings), 6), StopMove(cancels),
                  StoppedBoard(settings, c, cancels))
  {
  }

  lemma MayCommitIt(settings: Settings, c: ConnId, cancels: bool)
    ensures B.Enabled(settings, 0, StoppedBoard(settings, c, cancels), B.Commit(TASK, SECOND, false))
  {
    assert BackoffBase(0) == SECOND;
  }

  /** The board once the worker has committed, and once the ad is resumed. */
  ghost function WaitingBoard(settings: Settings, c: ConnId, status: T.AdStatus, reason: T.PauseReason): B.Board {
    One(NewAd(c).(status := status, reason := reason), Lease(Pending, 1, LongEnough(settings), None, None), map[])
  }

  lemma CommitsWait(settings: Settings, c: ConnId, b: B.Board, l: Lease, ad: T.Ad)
    requires b == One(ad, l, map[TASK := B.Sent(LongWaitReport(settings))]) && l.attempts == 0
    requires ad == NewAd(c).(status := ad.status, reason := ad.reason)
    requires B.Enabled(settings, 0, b, B.Commit(TASK, SECOND, false))
    ensures Leads(settings, 0, b, B.Commit(TASK, SECOND, false), WaitingBoard(settings, c, T.AdPaused, T.FloodWait))
  {
    assert B.DecisionFor(settings, b, TASK, SECOND) == Decision(Again(LongEnough(settings)), false, true, false);
    assert B.Written(settings, b, TASK, SECOND, 0) == WaitingBoard(settings, c, T.AdPaused, T.FloodWait);
  }

  lemma Resumes(settings: Settings, c: ConnId)
    ensures Leads(settings, LongEnough(settings), WaitingBoard(settings, c, T.AdPaused, T.FloodWait), B.FloodResume(AD),
                  WaitingBoard(settings, c, T.AdSending, T.NoReason))
  {
    assert ROW in T.PendingOf(WaitingBoard(settings, c, T.AdPaused, T.FloodWait).targets, AD);
  }

  ghost function StopState(cfg: F.Config, c: ConnId, cancels: bool, n: nat): State {
    var wait := LongEnough(cfg.settings);
    if n <= 6 then With(c, 0, Prefix(cfg.settings, c, LongWaitReport(cfg.settings), n))
    else if n == 7 then With(c, 0, StoppedBoard(cfg.settings, c, cancels))
    else if n <= 9 then With(c, if n == 8 then 0 else wait, WaitingBoard(cfg.settings, c, T.AdPaused, T.FloodWait))
    else With(c, wait, WaitingBoard(cfg.settings, c, T.AdSending, T.NoReason))
  }

  function StopStep(settings: Settings, c: ConnId, cancels: bool, n: nat): Step {
    if n < 6 then AdStep(PrefixMove(c, LongWaitReport(settings), n))
    else if n == 6 then AdStep(StopMove(cancels))
    else if n == 7 then AdStep(B.Commit(TASK, SECOND, false))
    else if n == 8 then Tick(LongEnough(settings))
    else AdStep(B.FloodResume(AD))
  }

  lemma StopFollows(cfg: F.Config, c: ConnId, cancels: bool, n: nat)
    requires cfg.settings.broadcastInflight > 0 && n < 10
    ensures StepsTo(cfg, StopState(cfg, c, cancels, n), StopStep(cfg.settings, c, cancels, n), StopState(cfg, c, cancels, n + 1))
  {
    var settings := cfg.settings;
    if n < 6 {
      PrefixSteps(cfg, c, LongWaitReport(settings), n);
    } else if n == 6 {
      Stops(settings, c, cancels);
      BoardStep(cfg, StopState(cfg, c, cancels, 6), StopMove(cancels), StoppedBoard(settings, c, cancels));
    } else if n == 7 {
      var b := StoppedBoard(settings, c, cancels);
      MayCommitIt(settings, c, cancels);
      CommitsWait(settings, c, b, b.targets[ROW].lease, Stopping(c, cancels));
      BoardStep(cfg, With(c, 0, b), B.Commit(TASK, SECOND, false), WaitingBoard(settings, c, T.AdPaused, T.FloodWait));
    } else if n == 9 {
      Resumes(settings, c);
      BoardStep(cfg, StopState(cfg, c, cancels, 9), B.FloodResume(AD), WaitingBoard(settings, c, T.AdSending, T.NoReason));
    }
  }

  lemma StopRun(cfg: F.Config, c: ConnId, cancels: bool) returns (states: seq<State>, steps: seq<Step>)
    requires cfg.settings.broadcastInflight > 0
    ensures IsRun(cfg, states, steps) && |steps| == 10
    ensures forall n: nat :: n < 11 ==> states[n] == StopState(cfg, c, cancels, n)
    ensures forall n: nat :: n < 10 ==> steps[n] == StopStep(cfg.settings, c, cancels, n)
  {
    var at := (n: nat) => StopState(cfg, c, cancels, n);
    var move := (n: nat) => StopStep(cfg.settings, c, cancels, n);
    forall n: nat | n < 10 ensures StepAt(cfg, at, move, n) {
      StopFollows(cfg, c, cancels, n);
    }
    Chain(cfg, at, move, 10);
    states, steps := Values(at, 11), Values(move, 10);
  }

  lemma StoppedHolds(settings: Settings, c: ConnId, cancels: bool)
    ensures var b := StoppedBoard(settings, c, cancels); if cancels then Dormant(b, AD) else KeptPaused(b, AD)
  {
    if cancels {
      forall r ensures TargetQuiet(StoppedBoard(settings, c, true).targets, AD, r) {
      }
    }
  }

  /** The customer cancels or pauses the ad at step 6, and three steps that the system takes by itself
      later it is sending again. */
  ghost predicate SendsAgain(states: seq<State>, steps: seq<Step>, cancels: bool)
    requires |steps| == 10 && |states| == 11
  {
    && Initial(states[0]) && steps[6] == AdStep(StopMove(cancels))
    && (if cancels then Dormant(states[7].b, AD) else KeptPaused(states[7].b, AD))
    && Automatic(steps[7]) && Automatic(steps[8]) && Automatic(steps[9])
    && AD in states[10].b.ads && states[10].b.ads[AD].status == T.AdSending
  }

  lemma StopEnds(cfg: F.Config, c: ConnId, cancels: bool)
    ensures Initial(StopState(cfg, c, cancels, 0))
    ensures StopState(cfg, c, cancels, 7).b == StoppedBoard(cfg.settings, c, cancels)
    ensures StopState(cfg, c, cancels, 10).b.ads == map[AD := SendingAd(c)]
  {
  }

  /** It happens with any settings that admit a target at all. */
  lemma StoppedAdResumes(cfg: F.Config, c: ConnId, cancels: bool) returns (states: seq<State>, steps: seq<Step>)
    requires cfg.settings.broadcastInflight > 0
    ensures IsRun(cfg, states, steps) && |steps| == 10 && SendsAgain(states, steps, cancels)
  {
    states, steps := StopRun(cfg, c, cancels);
    StoppedHolds(cfg.settings, c, cancels);
    StopEnds(cfg, c, cancels);
    assert states[0] == StopState(cfg, c, cancels, 0) && states[10] == StopState(cfg, c, cancels, 10);
  }
}
