/** Runs from an empty store that reach what can go wrong: a leased target that is skipped, a wait cut
    short, a pause overwritten (backend/app/scheduler.py, backend/app/services/broadcast.py). */
module Reached {
  import opened Types
  import opened Leases
  import opened Delivery
  import opened System
  import opened Cascade
  import opened PausedRuns
  import opened PausedAds
  import opened Waits
  import opened Episodes
  import F = Forwarding
  import B = Broadcasting
  import T = Broadcasts

  // ------------------------------------------------------------------------
  // A leased target that does not finish after the customer's pause
  // ------------------------------------------------------------------------

  function CustomerPaused(c: ConnId): T.Ad {
    SendingAd(c).(status := T.AdPaused, reason := T.PausedByCustomer)
  }

  ghost function SkipBoard(settings: Settings, c: ConnId, n: nat): B.Board {
    if n <= 4 then Prefix(settings, c, Ambiguous, n)
    else if n == 5 then One(CustomerPaused(c), LeasedRow(settings), map[TASK := B.Held])
    else if n == 6 then One(CustomerPaused(c), LeasedRow(settings), map[TASK := B.Barred(false)])
    else One(CustomerPaused(c), Lease(Skipped, 0, 0, None, None), map[])
  }

  function SkipMove(c: ConnId, n: nat): B.Action {
    if n < 4 then PrefixMove(c, Ambiguous, n)
    else if n == 4 then B.PauseAd(AD, T.PausedByCustomer)
    else if n == 5 then B.Load(TASK, false, true)
    else B.Refuse(TASK, false)
  }

  lemma SkipLeads(settings: Settings, c: ConnId, n: nat)
    requires settings.broadcastInflight > 0 && n < 7
    ensures Leads(settings, 0, SkipBoard(settings, c, n), SkipMove(c, n), SkipBoard(settings, c, n + 1))
  {
    if n < 4 {
      PrefixLeads(settings, c, Ambiguous, n);
    }
  }

  lemma SkipFollows(cfg: F.Config, c: ConnId, n: nat)
    requires cfg.settings.broadcastInflight > 0 && n < 7
    ensures StepsTo(cfg, With(c, 0, SkipBoard(cfg.settings, c, n)), AdStep(SkipMove(c, n)), With(c, 0, SkipBoard(cfg.settings, c, n + 1)))
  {
    SkipLeads(cfg.settings, c, n);
    BoardStep(cfg, With(c, 0, SkipBoard(cfg.settings, c, n)), SkipMove(c, n), SkipBoard(cfg.settings, c, n + 1));
  }

  /** Paused by the customer while a worker has the target leased, the ad is not posted: the worker
      skips the target. */
  lemma LeasedTargetSkipped(cfg: F.Config, c: ConnId) returns (states: seq<State>, steps: seq<Step>)
    requires cfg.settings.broadcastInflight > 0
    ensures IsRun(cfg, states, steps) && |steps| == 7 && Initial(states[0])
    ensures steps[4] == AdStep(B.PauseAd(AD, T.PausedByCustomer)) && states[4].b == SkipBoard(cfg.settings, c, 4)
    ensures states[7].b == One(CustomerPaused(c), Lease(Skipped, 0, 0, None, None), map[])
  {
    var at := (n: nat) => With(c, 0, SkipBoard(cfg.settings, c, n));
    var move := (n: nat) => AdStep(SkipMove(c, n));
    forall n: nat | n < 7 ensures StepAt(cfg, at, move, n) {
      SkipFollows(cfg, c, n);
    }
    Chain(cfg, at, move, 7);
    states, steps := Values(at, 8), Values(move, 7);
  }

  // ------------------------------------------------------------------------
  // A scheduled start that cuts a wait short
  // ------------------------------------------------------------------------

  /** The ad that was paused for the wait, given a start time that comes before its end. */
  function Rescheduling(c: ConnId, status: T.AdStatus, reason: T.PauseReason): T.Ad {
    NewAd(c).(status := status, reason := reason, scheduledFor := Some(1))
  }

  ghost function RushBoard(settings: Settings, c: ConnId, n: nat): B.Board {
    var row := Lease(Pending, 1, LongEnough(settings), None, None);
    if n <= 6 then Prefix(settings, c, LongWaitReport(settings), n)
    else if n == 7 then One(NewAd(c).(status := T.AdPaused, reason := T.FloodWait), row, map[])
    else if n == 8 then One(Rescheduling(c, T.AdPaused, T.FloodWait), row, map[])
    else if n <= 10 then One(Rescheduling(c, T.AdScheduled, T.FloodWait), row, map[])
    else One(Rescheduling(c, T.AdSending, T.NoReason), row.(notBefore := 1), map[])
  }

  function RushStep(settings: Settings, c: ConnId, n: nat): Step {
    if n < 6 then AdStep(PrefixMove(c, LongWaitReport(settings), n))
    else if n == 6 then AdStep(B.Commit(TASK, SECOND, true))
    else if n == 7 then AdStep(B.EditAd(AD, 0, None, Some(1)))
    else if n == 8 then AdStep(B.SendAd(AD, true))
    else if n == 9 then Tick(1)
    else AdStep(B.StartScheduled(AD, true))
  }

  ghost function RushState(cfg: F.Config, c: ConnId, n: nat): State {
    With(c, if n <= 9 then 0 else 1, RushBoard(cfg.settings, c, n))
  }

  lemma WritesLongWait(settings: Settings, c: ConnId)
    ensures B.Written(settings, Prefix(settings, c, LongWaitReport(settings), 6), TASK, SECOND, 0) == RushBoard(settings, c, 7)
  {
    var b := Prefix(settings, c, LongWaitReport(settings), 6);
    assert B.DecisionFor(settings, b, TASK, SECOND) == Decision(Again(LongEnough(settings)), false, true, false);
  }

  lemma CommitsLongWait(settings: Settings, c: ConnId)
    ensures Leads(settings, 0, Prefix(settings, c, LongWaitReport(settings), 6), B.Commit(TASK, SECOND, true), RushBoard(settings, c, 7))
  {
    assert BackoffBase(0) == SECOND;
    WritesLongWait(settings, c);
  }

  lemma Schedules(settings: Settings, c: ConnId)
    ensures Leads(settings, 0, RushBoard(settings, c, 7), B.EditAd(AD, 0, None, Some(1)), RushBoard(settings, c, 8))
    ensures Leads(settings, 0, RushBoard(settings, c, 8), B.SendAd(AD, true), RushBoard(settings, c, 9))
  {
  }

  lemma Starts(settings: Settings, c: ConnId)
    ensures Leads(settings, 1, RushBoard(settings, c, 10), B.StartScheduled(AD, true), RushBoard(settings, c, 11))
  {
    assert forall n: nat :: T.Slot(1, 0, n) == 1;
    assert ROW in T.PendingOf(RushBoard(settings, c, 10).targets, AD);
  }

  lemma RushFollows(cfg: F.Config, c: ConnId, n: nat)
    requires cfg.settings.broadcastInflight > 0 && n < 11
    ensures StepsTo(cfg, RushState(cfg, c, n), RushStep(cfg.settings, c, n), RushState(cfg, c, n + 1))
  {
    var settings, s := cfg.settings, RushState(cfg, c, n);
    if n < 6 {
      PrefixSteps(cfg, c, LongWaitReport(settings), n);
    } else if n == 6 {
      CommitsLongWait(settings, c);
      BoardStep(cfg, s, B.Commit(TASK, SECOND, true), RushBoard(settings, c, 7));
    } else if n == 7 || n == 8 {
      Schedules(settings, c);
      BoardStep(cfg, s, RushStep(settings, c, n).ad, RushBoard(settings, c, n + 1));
    } else if n == 10 {
      Starts(settings, c);
      BoardStep(cfg, s, B.StartScheduled(AD, true), RushBoard(settings, c, 11));
    }
  }

  /** The wait is under way, and the start that the scheduler makes by itself is before its end. */
  ghost predicate CutShort(settings: Settings, states: seq<State>, steps: seq<Step>)
    requires |steps| == 11 && |states| == 12
  {
    && Initial(states[0]) && Automatic(steps[9]) && Automatic(steps[10]) && steps[10].AdStep?
    && Parked(states[7].b, ROW, LongEnough(settings)) && Parked(states[10].b, ROW, LongEnough(settings))
    && Rushes(states[10].b, states[10].now, steps[10].ad, ROW, LongEnough(settings))
    && states[11].now < LongEnough(settings) && ROW in states[11].b.targets
    && Claimable(states[11].b.targets[ROW].lease, states[11].now)
  }

  lemma RushEnds(cfg: F.Config, c: ConnId)
    ensures var row := Lease(Pending, 1, LongEnough(cfg.settings), None, None);
      && Initial(RushState(cfg, c, 0))
      && RushState(cfg, c, 7).b == One(NewAd(c).(status := T.AdPaused, reason := T.FloodWait), row, map[])
      && RushState(cfg, c, 10) == With(c, 1, One(Rescheduling(c, T.AdScheduled, T.FloodWait), row, map[]))
      && RushState(cfg, c, 11) == With(c, 1, One(Rescheduling(c, T.AdSending, T.NoReason), row.(notBefore := 1), map[]))
  {
  }

  lemma RushIsEarly(settings: Settings, c: ConnId)
    ensures var b := RushBoard(settings, c, 10);
      Parked(b, ROW, LongEnough(settings)) && Rushes(b, 1, B.StartScheduled(AD, true), ROW, LongEnough(settings))
  {
    assert forall n: nat :: T.Slot(1, 0, n) == 1;
  }

  lemma RushRun(cfg: F.Config, c: ConnId) returns (states: seq<State>, steps: seq<Step>)
    requires cfg.settings.broadcastInflight > 0
    ensures IsRun(cfg, states, steps) && |steps| == 11
    ensures forall n: nat :: n < 12 ==> states[n] == RushState(cfg, c, n)
    ensures forall n: nat :: n < 11 ==> steps[n] == RushStep(cfg.settings, c, n)
  {
    var at := (n: nat) => RushState(cfg, c, n);
    var move := (n: nat) => RushStep(cfg.settings, c, n);
    forall n: nat | n < 11 ensures StepAt(cfg, at, move, n) {
      RushFollows(cfg, c, n);
    }
    Chain(cfg, at, move, 11);
    states, steps := Values(at, 12), Values(move, 11);
  }

  /** A target is rate-limited, its ad is scheduled for a time before the end of the wait, and when
      the scheduler starts it the target is due. */
  lemma ScheduledStartCutsWait(cfg: F.Config, c: ConnId) returns (states: seq<State>, steps: seq<Step>)
    requires cfg.settings.broadcastInflight > 0
    ensures IsRun(cfg, states, steps) && |steps| == 11 && CutShort(cfg.settings, states, steps)
  {
    states, steps := RushRun(cfg, c);
    RushEnds(cfg, c);
    RushIsEarly(cfg.settings, c);
    assert states[0] == RushState(cfg, c, 0) && states[7] == RushState(cfg, c, 7);
    assert states[10] == RushState(cfg, c, 10) && states[11] == RushState(cfg, c, 11);
  }

  // ------------------------------------------------------------------------
  // A health check that overwrites a pause
  // ------------------------------------------------------------------------

  ghost function PauseBoard(settings: Settings, c: ConnId): B.Board {
    One(SendingAd(c).(status := T.AdPaused, reason := T.ConnectionLost), Lease(Failed, 0, 0, None, None), map[])
  }

  ghost function PauseState(cfg: F.Config, c: ConnId, n: nat): State {
    if n <= 6 then With(c, 0, Prefix(cfg.settings, c, REVOKED, n))
    else if n == 7 then With(c, 0, Prefix(cfg.settings, c, REVOKED, 6)).(checks := map[c := false])
    else if n == 8 then State(0, map[c := PausedSafety], map[c := false], F.EMPTY, PauseBoard(cfg.settings, c))
    else if n == 9 then State(0, map[c := ConnError], map[], F.EMPTY, PauseBoard(cfg.settings, c))
    else if n == 10 then State(0, map[c := ConnError], map[c := true], F.EMPTY, PauseBoard(cfg.settings, c))
    else With(c, 0, PauseBoard(cfg.settings, c))
  }

  function PauseStep(c: ConnId, n: nat): Step {
    if n < 6 then AdStep(PrefixMove(c, REVOKED, n))
    else if n == 6 || n == 9 then LoadChecks
    else if n == 7 then AdStep(B.Commit(TASK, SECOND, true))
    else if n == 8 then HealthCheck(c, false)
    else HealthCheck(c, true)
  }

  lemma Withdrawing(settings: Settings, c: ConnId)
    ensures var b := Prefix(settings, c, REVOKED, 6);
      B.Withdrawn(b, c, T.ConnectionLost)
        == One(SendingAd(c).(status := T.AdPaused, reason := T.ConnectionLost), Lease(Skipped, 0, 0, None, None), b.hands)
  {
    var b := Prefix(settings, c, REVOKED, 6);
    assert T.PausedOn(b.ads, c, T.ConnectionLost) == map[AD := SendingAd(c).(status := T.AdPaused, reason := T.ConnectionLost)];
    assert T.CancelledForConnection(b.ads, b.targets, c)
        == map[ROW := T.Target(AD, CHAT, 0, Lease(Skipped, 0, 0, None, None))];
  }

  lemma WritesPause(settings: Settings, c: ConnId)
    ensures B.Written(settings, Prefix(settings, c, REVOKED, 6), TASK, SECOND, 0) == PauseBoard(settings, c)
  {
    Withdrawing(settings, c);
  }

  lemma MayCommitPause(settings: Settings, c: ConnId)
    ensures B.Enabled(settings, 0, Prefix(settings, c, REVOKED, 6), B.Commit(TASK, SECOND, true))
  {
    assert BackoffBase(0) == SECOND;
    WritesPause(settings, c);
  }

  lemma CommitsPause(settings: Settings, c: ConnId)
    ensures Leads(settings, 0, Prefix(settings, c, REVOKED, 6), B.Commit(TASK, SECOND, true), PauseBoard(settings, c))
  {
    MayCommitPause(settings, c);
    WritesPause(settings, c);
  }

  lemma PauseCommitted(cfg: F.Config, c: ConnId)
    ensures StepsTo(cfg, PauseState(cfg, c, 7), AdStep(B.Commit(TASK, SECOND, true)), PauseState(cfg, c, 8))
  {
    CommitsPause(cfg.settings, c);
    assert F.Withdrawn(F.EMPTY, c) == F.EMPTY;
  }

  lemma ChecksFollow(cfg: F.Config, c: ConnId, n: nat)
    requires n == 6 || 8 <= n <= 10
    ensures StepsTo(cfg, PauseState(cfg, c, n), PauseStep(c, n), PauseState(cfg, c, n + 1))
  {
  }

  lemma PauseFollows(cfg: F.Config, c: ConnId, n: nat)
    requires cfg.settings.broadcastInflight > 0 && n < 11
    ensures StepsTo(cfg, PauseState(cfg, c, n), PauseStep(c, n), PauseState(cfg, c, n + 1))
  {
    if n < 6 {
      PrefixSteps(cfg, c, REVOKED, n);
    } else if n == 7 {
      PauseCommitted(cfg, c);
    } else {
      ChecksFollow(cfg, c, n);
    }
  }

  lemma PauseRun(cfg: F.Config, c: ConnId) returns (states: seq<State>, steps: seq<Step>)
    requires cfg.settings.broadcastInflight > 0
    ensures IsRun(cfg, states, steps) && |steps| == 11
    ensures forall n: nat :: n < 12 ==> states[n] == PauseState(cfg, c, n)
    ensures forall n: nat :: n < 11 ==> steps[n] == PauseStep(c, n)
  {
    var at := (n: nat) => PauseState(cfg, c, n);
    var move := (n: nat) => PauseStep(c, n);
    forall n: nat | n < 11 ensures StepAt(cfg, at, move, n) {
      PauseFollows(cfg, c, n);
    }
    Chain(cfg, at, move, 11);
    states, steps := Values(at, 12), Values(move, 11);
  }

  /** The connection is paused at step 7, and three steps of the health loop later it is usable. */
  ghost predicate Forgotten(states: seq<State>, steps: seq<Step>, c: ConnId)
    requires |steps| == 11 && |states| == 12
  {
    && Initial(states[0]) && Pauses(states[7], steps[7], c)
    && IsPaused(states[8], c) && Quiet(states[8], c) && Overwrites(states[8], steps[8], c)
    && Automatic(steps[8]) && Automatic(steps[9]) && Automatic(steps[10])
    && Usable(states[11].conns, c)
  }

  lemma PauseEnds(cfg: F.Config, c: ConnId)
    ensures Initial(PauseState(cfg, c, 0)) && Pauses(PauseState(cfg, c, 7), PauseStep(c, 7), c)
    ensures PauseState(cfg, c, 8) == State(0, map[c := PausedSafety], map[c := false], F.EMPTY, PauseBoard(cfg.settings, c))
    ensures PauseState(cfg, c, 11) == With(c, 0, PauseBoard(cfg.settings, c))
  {
  }

  lemma PausedIsQuiet(settings: Settings, c: ConnId)
    ensures Quiet(State(0, map[c := PausedSafety], map[c := false], F.EMPTY, PauseBoard(settings, c)), c)
  {
    forall k ensures QuietOn(PauseBoard(settings, c), c, k) {
      forall r ensures TargetQuiet(PauseBoard(settings, c).targets, k, r) {
      }
    }
  }

  /** The health loop loads the connection, an unauthorized report pauses it, and the check writes
      over the pause; the next check makes the connection active. */
  lemma PauseOverwritten(cfg: F.Config, c: ConnId) returns (states: seq<State>, steps: seq<Step>)
    requires cfg.settings.broadcastInflight > 0
    ensures IsRun(cfg, states, steps) && |steps| == 11 && Forgotten(states, steps, c)
  {
    states, steps := PauseRun(cfg, c);
    PauseEnds(cfg, c);
    PausedIsQuiet(cfg.settings, c);
    assert states[0] == PauseState(cfg, c, 0) && states[7] == PauseState(cfg, c, 7);
    assert states[8] == PauseState(cfg, c, 8) && states[11] == PauseState(cfg, c, 11);
  }
}
