/** A run from an empty store in which work comes back on a paused connection
    (backend/app/services/safety.py, backend/app/services/broadcast.py). */
module Revived {
  // Two targets of one ad are in hand. One meets an unauthorized report, which pauses the connection;
  // the other a long wait, which is committed afterwards.

  import opened Types
  import opened Leases
  import opened Delivery
  import opened System
  import opened Cascade
  import opened PausedRuns
  import opened Episodes
  import F = Forwarding
  import B = Broadcasting
  import J = Jobs
  import T = Broadcasts
  import Admission

  const OTHER: RowId := 1
  const NEXT_CHAT: RowId := 8
  const SECOND_TASK := B.Task(0, OTHER)
  ghost function Two(ad: T.Ad, l: Lease, m: Lease, hands: map<B.Task, B.Phase>): B.Board {
    B.Board(map[AD := ad], Rows(l, m), hands,
            map[ROW := B.NOTHING_YET, OTHER := B.NOTHING_YET], [])
  }

  function Stopped(c: ConnId, reason: T.PauseReason): T.Ad {
    NewAd(c).(status := T.AdPaused, reason := reason)
  }

  function Ended(status: JobStatus): Lease {
    Lease(status, 0, 0, None, None)
  }

  function Rows(l: Lease, m: Lease): T.TargetTable {
    map[ROW := T.Target(AD, CHAT, 0, l), OTHER := T.Target(AD, NEXT_CHAT, 1, m)]
  }

  /** A table with these two rows is the whole table. */
  lemma OnlyRows(targets: T.TargetTable, l: Lease, m: Lease)
    requires targets.Keys == {ROW, OTHER}
    requires targets[ROW] == T.Target(AD, CHAT, 0, l) && targets[OTHER] == T.Target(AD, NEXT_CHAT, 1, m)
    ensures targets == Rows(l, m)
  {
  }

  lemma TwoGroups()
    ensures T.Distinct([CHAT, NEXT_CHAT]) == [CHAT, NEXT_CHAT]
  {
    OneGroup();
    assert [CHAT, NEXT_CHAT][..1] == [CHAT];
  }

  lemma BothSelected()
    ensures T.Selected(map[], AD, [CHAT, NEXT_CHAT], [ROW, OTHER], 0) == Rows(Fresh(0), Fresh(0))
  {
    var wanted, newIds := [CHAT, NEXT_CHAT], [ROW, OTHER];
    var targets := T.Selected(map[], AD, wanted, newIds, 0);
    assert !T.HasRow(map[], AD, wanted[0]) && !T.HasRow(map[], AD, wanted[1]);
    assert newIds[0] in targets && newIds[1] in targets;
    OnlyRows(targets, Fresh(0), Fresh(0));
  }

  ghost function Composed(c: ConnId): B.Board {
    B.Board(map[AD := NewAd(c)], map[], map[], map[], [])
  }

  lemma MayList(settings: Settings, c: ConnId)
    ensures B.Enabled(settings, 0, Composed(c), B.SetTargets(AD, [CHAT, NEXT_CHAT], [ROW, OTHER]))
  {
    TwoGroups();
    assert [ROW, OTHER][0] == ROW && [ROW, OTHER][1] == OTHER;
  }

  lemma BothOpened()
    ensures B.Opened(Rows(Fresh(0), Fresh(0)), map[]) == map[ROW := B.NOTHING_YET, OTHER := B.NOTHING_YET]
  {
  }

  lemma BothListed(settings: Settings, c: ConnId)
    ensures Leads(settings, 0, Composed(c), B.SetTargets(AD, [CHAT, NEXT_CHAT], [ROW, OTHER]),
                  Two(NewAd(c), Fresh(0), Fresh(0), map[]))
  {
    MayList(settings, c);
    TwoGroups();
    BothSelected();
    BothOpened();
  }

  lemma BothSentOff(settings: Settings, c: ConnId)
    ensures Leads(settings, 0, Two(NewAd(c), Fresh(0), Fresh(0), map[]), B.SendAd(AD, true),
                  Two(SendingAd(c), Fresh(0), Fresh(0), map[]))
  {
    var b := Two(NewAd(c), Fresh(0), Fresh(0), map[]);
    assert forall n: nat :: T.Slot(0, 0, n) == 0;
    assert T.Staggered(b.targets, AD, 0, 0) == b.targets;
  }

  lemma BothAdmitted(settings: Settings, c: ConnId, jobs: ConnId -> nat)
    requires settings.broadcastInflight > 1 && jobs(c) == 0
    ensures var b := Two(SendingAd(c), Fresh(0), Fresh(0), map[]);
      T.Accepted(b.ads, b.targets, jobs, [ROW, OTHER], settings.broadcastInflight) == {ROW, OTHER}
  {
    var b := Two(SendingAd(c), Fresh(0), Fresh(0), map[]);
    var base := T.BusyOn(b.ads, b.targets, jobs);
    assert T.LeasedOn(b.ads, b.targets, c) == {};
    assert T.ConnsOf(b.ads, b.targets, [ROW, OTHER]) == [c, c];
    assert Admission.Before([c, c], 0, c) == 0;
    assert Admission.Before([c, c], 1, c) == 1;
    assert Admission.Admits([c, c], base, settings.broadcastInflight, 0);
    assert Admission.Admits([c, c], base, settings.broadcastInflight, 1);
  }

  lemma BothLeased(settings: Settings)
    ensures T.ClaimedRows(Rows(Fresh(0), Fresh(0)), {ROW, OTHER}, 0, settings.leaseTime)
         == Rows(LeasedRow(settings), LeasedRow(settings))
  {
    OnlyRows(T.ClaimedRows(Rows(Fresh(0), Fresh(0)), {ROW, OTHER}, 0, settings.leaseTime), LeasedRow(settings), LeasedRow(settings));
  }

  lemma BothHeld()
    ensures B.TakenInHand(map[], {ROW, OTHER}, 0) == map[TASK := B.Held, SECOND_TASK := B.Held]
  {
  }

  lemma MayTakeBoth(settings: Settings, c: ConnId, jobs: ConnId -> nat)
    ensures B.Enabled(settings, 0, Two(SendingAd(c), Fresh(0), Fresh(0), map[]), B.Claim(0, [ROW, OTHER], 2, jobs))
  {
  }

  lemma BothTaken(settings: Settings, c: ConnId, jobs: ConnId -> nat)
    requires settings.broadcastInflight > 1 && jobs(c) == 0
    ensures Leads(settings, 0, Two(SendingAd(c), Fresh(0), Fresh(0), map[]), B.Claim(0, [ROW, OTHER], 2, jobs),
                  Two(SendingAd(c), LeasedRow(settings), LeasedRow(settings), map[TASK := B.Held, SECOND_TASK := B.Held]))
  {
    MayTakeBoth(settings, c, jobs);
    BothAdmitted(settings, c, jobs);
    BothLeased(settings);
    BothHeld();
  }

  ghost function InHand(settings: Settings, c: ConnId, p: B.Phase, q: B.Phase): B.Board {
    Two(SendingAd(c), LeasedRow(settings), LeasedRow(settings), map[TASK := p, SECOND_TASK := q])
  }

  /** What happens to one task while the other stays as it is. */
  lemma LoadedIn(settings: Settings, c: ConnId, p: B.Phase, q: B.Phase)
    ensures p.Held? ==> Leads(settings, 0, InHand(settings, c, p, q), B.Load(TASK, true, true), InHand(settings, c, B.Armed, q))
    ensures q.Held? ==> Leads(settings, 0, InHand(settings, c, p, q), B.Load(SECOND_TASK, true, true), InHand(settings, c, p, B.Armed))
  {
  }

  lemma AnsweredIn(settings: Settings, c: ConnId, p: B.Phase, q: B.Phase, r: Report)
    requires !r.Receipt?
    ensures p.Armed? ==> Leads(settings, 0, InHand(settings, c, p, q), B.Send(TASK, r), InHand(settings, c, B.Sent(r), q))
    ensures q.Armed? ==> Leads(settings, 0, InHand(settings, c, p, q), B.Send(SECOND_TASK, r), InHand(settings, c, p, B.Sent(r)))
  {
  }

  /** The board once the first worker has committed: quiet, with the second report still in hand. */
  ghost function QuietBoard(settings: Settings, c: ConnId): B.Board {
    Two(Stopped(c, T.ConnectionLost), Ended(Failed), Ended(Skipped), map[SECOND_TASK := B.Sent(LongWaitReport(settings))])
  }

  ghost function RevivedBoard(settings: Settings, c: ConnId): B.Board {
    Two(Stopped(c, T.FloodWait), Ended(Failed), Lease(Pending, 1, LongEnough(settings), None, None), map[])
  }

  lemma BothWithdrawn(settings: Settings, c: ConnId)
    ensures var b := InHand(settings, c, B.Sent(REVOKED), B.Sent(LongWaitReport(settings)));
      B.Withdrawn(b, c, T.ConnectionLost) == Two(Stopped(c, T.ConnectionLost), Ended(Skipped), Ended(Skipped), b.hands)
  {
    var b := InHand(settings, c, B.Sent(REVOKED), B.Sent(LongWaitReport(settings)));
    assert T.PausedOn(b.ads, c, T.ConnectionLost) == map[AD := Stopped(c, T.ConnectionLost)];
    OnlyRows(T.CancelledForConnection(b.ads, b.targets, c), Ended(Skipped), Ended(Skipped));
  }

  lemma OnePut(l: Lease, m: Lease, n: Lease)
    ensures T.Put(Rows(l, m), ROW, n) == Rows(n, m)
    ensures T.Put(Rows(l, m), OTHER, n) == Rows(l, n)
  {
  }

  lemma WritesQuiet(settings: Settings, c: ConnId)
    ensures var b := InHand(settings, c, B.Sent(REVOKED), B.Sent(LongWaitReport(settings)));
      B.Written(settings, b, TASK, SECOND, 0) == QuietBoard(settings, c)
  {
    BothWithdrawn(settings, c);
    OnePut(Ended(Skipped), Ended(Skipped), Ended(Failed));
    var b := InHand(settings, c, B.Sent(REVOKED), B.Sent(LongWaitReport(settings)));
    assert B.DecisionFor(settings, b, TASK, SECOND) == Decision(Done(Failed), true, false, false);
    assert b.hands - {TASK} == QuietBoard(settings, c).hands;
  }

  lemma PausesBoth(settings: Settings, c: ConnId)
    ensures Leads(settings, 0, InHand(settings, c, B.Sent(REVOKED), B.Sent(LongWaitReport(settings))),
                  B.Commit(TASK, SECOND, true), QuietBoard(settings, c))
  {
    assert BackoffBase(0) == SECOND;
    WritesQuiet(settings, c);
  }

  lemma WritesRevived(settings: Settings, c: ConnId)
    ensures B.Written(settings, QuietBoard(settings, c), SECOND_TASK, SECOND, 0) == RevivedBoard(settings, c)
  {
    assert B.DecisionFor(settings, QuietBoard(settings, c), SECOND_TASK, SECOND)
        == Decision(Again(LongEnough(settings)), false, true, false);
  }

  lemma Revives(settings: Settings, c: ConnId)
    ensures Leads(settings, 0, QuietBoard(settings, c), B.Commit(SECOND_TASK, SECOND, false), RevivedBoard(settings, c))
  {
    assert BackoffBase(0) == SECOND;
    WritesRevived(settings, c);
  }

  // ------------------------------------------------------------------------
  // The run
  // ------------------------------------------------------------------------

  ghost function BoardAt(settings: Settings, c: ConnId, n: nat): B.Board {
    if n == 0 then B.EMPTY
    else if n == 1 then Composed(c)
    else if n == 2 then Two(NewAd(c), Fresh(0), Fresh(0), map[])
    else if n == 3 then Two(SendingAd(c), Fresh(0), Fresh(0), map[])
    else if n == 4 then InHand(settings, c, B.Held, B.Held)
    else if n == 5 then InHand(settings, c, B.Armed, B.Held)
    else if n == 6 then InHand(settings, c, B.Armed, B.Armed)
    else if n == 7 then InHand(settings, c, B.Sent(REVOKED), B.Armed)
    else if n == 8 then InHand(settings, c, B.Sent(REVOKED), B.Sent(LongWaitReport(settings)))
    else if n == 9 then QuietBoard(settings, c)
    else RevivedBoard(settings, c)
  }

  function MoveAt(settings: Settings, c: ConnId, n: nat): B.Action {
    if n == 0 then B.Compose(AD, NewAd(c))
    else if n == 1 then B.SetTargets(AD, [CHAT, NEXT_CHAT], [ROW, OTHER])
    else if n == 2 then B.SendAd(AD, true)
    else if n == 3 then B.Claim(0, [ROW, OTHER], 2, J.BusyOn(map[]))
    else if n == 4 then B.Load(TASK, true, true)
    else if n == 5 then B.Load(SECOND_TASK, true, true)
    else if n == 6 then B.Send(TASK, REVOKED)
    else if n == 7 then B.Send(SECOND_TASK, LongWaitReport(settings))
    else if n == 8 then B.Commit(TASK, SECOND, true)
    else B.Commit(SECOND_TASK, SECOND, false)
  }

  lemma BoardLeads(settings: Settings, c: ConnId, n: nat)
    requires settings.broadcastInflight > 1 && n < 10
    ensures Leads(settings, 0, BoardAt(settings, c, n), MoveAt(settings, c, n), BoardAt(settings, c, n + 1))
  {
    if n == 1 {
      BothListed(settings, c);
    } else if n == 2 {
      BothSentOff(settings, c);
    } else if n == 3 {
      assert J.LeasedOn(map[], c) == {};
      BothTaken(settings, c, J.BusyOn(map[]));
    } else if n == 4 || n == 5 {
      LoadedIn(settings, c, if n == 4 then B.Held else B.Armed, B.Held);
    } else if n == 6 {
      AnsweredIn(settings, c, B.Armed, B.Armed, REVOKED);
    } else if n == 7 {
      AnsweredIn(settings, c, B.Sent(REVOKED), B.Armed, LongWaitReport(settings));
    } else if n == 8 {
      PausesBoth(settings, c);
    } else if n == 9 {
      Revives(settings, c);
    }
  }

  ghost function StateAt(cfg: F.Config, c: ConnId, n: nat): State {
    State(0, map[c := if n <= 8 then ConnActive else PausedSafety], map[], F.EMPTY, BoardAt(cfg.settings, c, n))
  }

  lemma PauseStep(cfg: F.Config, c: ConnId)
    requires cfg.settings.broadcastInflight > 1
    ensures StepsTo(cfg, StateAt(cfg, c, 8), AdStep(MoveAt(cfg.settings, c, 8)), StateAt(cfg, c, 9))
  {
    BoardLeads(cfg.settings, c, 8);
    assert F.Withdrawn(F.EMPTY, c) == F.EMPTY;
  }

  lemma StateFollows(cfg: F.Config, c: ConnId, n: nat)
    requires cfg.settings.broadcastInflight > 1 && n < 10
    ensures StepsTo(cfg, StateAt(cfg, c, n), AdStep(MoveAt(cfg.settings, c, n)), StateAt(cfg, c, n + 1))
  {
    if n == 8 {
      PauseStep(cfg, c);
    } else {
      BoardLeads(cfg.settings, c, n);
      BoardStep(cfg, StateAt(cfg, c, n), MoveAt(cfg.settings, c, n), BoardAt(cfg.settings, c, n + 1));
    }
  }

  lemma RevivalRun(cfg: F.Config, c: ConnId) returns (states: seq<State>, steps: seq<Step>)
    requires cfg.settings.broadcastInflight > 1
    ensures IsRun(cfg, states, steps) && |steps| == 10
    ensures forall n: nat :: n < 11 ==> states[n] == StateAt(cfg, c, n)
    ensures forall n: nat :: n < 10 ==> steps[n] == AdStep(MoveAt(cfg.settings, c, n))
  {
    var at := (n: nat) => StateAt(cfg, c, n);
    var move := (n: nat) => AdStep(MoveAt(cfg.settings, c, n));
    forall n: nat | n < 10 ensures StepAt(cfg, at, move, n) {
      StateFollows(cfg, c, n);
    }
    Chain(cfg, at, move, 10);
    states, steps := Values(at, 11), Values(move, 10);
  }

  /** Paused and quiet after step 8, and no longer quiet after the next one, which nobody asked for. */
  ghost predicate ComesBack(states: seq<State>, steps: seq<Step>, c: ConnId)
    requires |steps| == 10 && |states| == 11
  {
    && Initial(states[0]) && IsPaused(states[9], c) && Quiet(states[9], c)
    && Automatic(steps[9]) && IsPaused(states[10], c) && !Quiet(states[10], c)
  }

  lemma RevivalEnds(cfg: F.Config, c: ConnId)
    ensures Initial(StateAt(cfg, c, 0)) && StateAt(cfg, c, 9) == State(0, map[c := PausedSafety], map[], F.EMPTY, QuietBoard(cfg.settings, c))
    ensures StateAt(cfg, c, 10) == State(0, map[c := PausedSafety], map[], F.EMPTY, RevivedBoard(cfg.settings, c))
  {
  }

  lemma QuietThenNot(settings: Settings, c: ConnId)
    ensures AdsQuiet(QuietBoard(settings, c), c) && !AdsQuiet(RevivedBoard(settings, c), c)
  {
    forall k ensures QuietOn(QuietBoard(settings, c), c, k) {
      forall r ensures TargetQuiet(QuietBoard(settings, c).targets, k, r) {
      }
    }
    assert !TargetQuiet(RevivedBoard(settings, c).targets, AD, OTHER);
    assert !QuietOn(RevivedBoard(settings, c), c, AD);
  }

  /** A worker with work of the connection in hand puts it back after the pause. */
  lemma WorkComesBack(cfg: F.Config, c: ConnId) returns (states: seq<State>, steps: seq<Step>)
    requires cfg.settings.broadcastInflight > 1
    ensures IsRun(cfg, states, steps) && |steps| == 10 && ComesBack(states, steps, c)
  {
    states, steps := RevivalRun(cfg, c);
    RevivalEnds(cfg, c);
    QuietThenNot(cfg.settings, c);
    assert states[0] == StateAt(cfg, c, 0) && states[9] == StateAt(cfg, c, 9) && states[10] == StateAt(cfg, c, 10);
  }
}
