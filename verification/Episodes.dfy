/** Runs from an empty store: the steps that every one of them begins with, and how steps that follow
    one another make a run (backend/app/worker.py, backend/app/services/broadcast.py). */
module Episodes {
  // Each shows that what a theorem allows to go wrong is reached.

  import opened Types
  import opened Leases
  import opened Delivery
  import opened System
  import F = Forwarding
  import B = Broadcasting
  import J = Jobs
  import T = Broadcasts
  import Admission

  ghost predicate StepsTo(cfg: F.Config, s: State, a: Step, s': State) {
    Enabled(cfg, s, a) && Next(cfg, s, a) == s'
  }

  ghost predicate Leads(settings: Settings, now: Time, b: B.Board, a: B.Action, b': B.Board) {
    B.Enabled(settings, now, b, a) && B.Apply(settings, now, b, a) == b'
  }

  /** A step of the board, with nothing forwarded and every load by the current status. */
  lemma BoardStep(cfg: F.Config, s: State, a: B.Action, b': B.Board)
    requires Leads(cfg.settings, s.now, s.b, a, b') && AdMayRun(s, a)
    requires a.Commit? ==> !Unauthorized(s.b.hands[a.task].report)
    ensures StepsTo(cfg, s, AdStep(a), s.(b := b'))
  {
  }

  ghost predicate StepAt(cfg: F.Config, at: nat -> State, move: nat -> Step, i: nat) {
    StepsTo(cfg, at(i), move(i), at(i + 1))
  }

  /** The first `n` values of a function. */
  function Values<X>(at: nat -> X, n: nat): (r: seq<X>)
    ensures |r| == n && forall i: nat :: i < n ==> r[i] == at(i)
  {
    if n == 0 then [] else Values(at, n - 1) + [at(n - 1)]
  }

  /** States that follow one another make a run. */
  lemma Chain(cfg: F.Config, at: nat -> State, move: nat -> Step, n: nat)
    requires forall i: nat :: i < n ==> StepAt(cfg, at, move, i)
    ensures IsRun(cfg, Values(at, n + 1), Values(move, n))
  {
    var states, steps := Values(at, n + 1), Values(move, n);
    forall i | 0 <= i < n ensures Follows(cfg, states, steps, i) {
      assert StepAt(cfg, at, move, i);
    }
  }

  // ------------------------------------------------------------------------
  // One ad for one group, up to its post
  // ------------------------------------------------------------------------

  const AD: RowId := 0
  const ROW: RowId := 0
  const CHAT: RowId := 7
  const TASK := B.Task(0, ROW)

  function NewAd(c: ConnId): T.Ad {
    T.Ad(c, T.AdDraft, T.NoReason, 0, None, 0, None)
  }

  function SendingAd(c: ConnId): T.Ad {
    NewAd(c).(status := T.AdSending)
  }

  ghost function One(ad: T.Ad, l: Lease, hands: map<B.Task, B.Phase>): B.Board {
    B.Board(map[AD := ad], map[ROW := T.Target(AD, CHAT, 0, l)], hands, map[ROW := B.NOTHING_YET], [])
  }

  ghost function With(c: ConnId, now: Time, b: B.Board): State {
    State(now, map[c := ConnActive], map[], F.EMPTY, b)
  }

  function LeasedRow(settings: Settings): Lease {
    Lease(Leased, 0, 0, Some(0), Some(settings.leaseTime))
  }

  function LongEnough(settings: Settings): nat {
    (if settings.floodPause > 0 then settings.floodPause else 0) + 2
  }

  /** Telegram asks for a wait of more than the threshold. */
  function LongWaitReport(settings: Settings): Report {
    Refused(RateLimit, Some(LongEnough(settings)))
  }

  const REVOKED := Refused(Auth, None)

  lemma OneGroup()
    ensures T.Distinct([CHAT]) == [CHAT]
    ensures T.Selected(map[], AD, [CHAT], [ROW], 0) == map[ROW := T.Target(AD, CHAT, 0, Fresh(0))]
  {
    assert [CHAT][..0] == [];
    assert T.Distinct([]) == [];
    assert !T.HasRow(map[], AD, CHAT);
  }

  lemma Listed(settings: Settings, c: ConnId)
    ensures Leads(settings, 0, B.Board(map[AD := NewAd(c)], map[], map[], map[], []), B.SetTargets(AD, [CHAT], [ROW]),
                  One(NewAd(c), Fresh(0), map[]))
  {
    OneGroup();
  }

  lemma SentOff(settings: Settings, c: ConnId)
    ensures Leads(settings, 0, One(NewAd(c), Fresh(0), map[]), B.SendAd(AD, true), One(SendingAd(c), Fresh(0), map[]))
  {
    var b := One(NewAd(c), Fresh(0), map[]);
    assert forall n: nat :: T.Slot(0, 0, n) == 0;
    assert T.Staggered(b.targets, AD, 0, 0) == b.targets;
  }

  lemma Taken(settings: Settings, c: ConnId, jobs: ConnId -> nat)
    requires settings.broadcastInflight > 0 && jobs(c) == 0
    ensures Leads(settings, 0, One(SendingAd(c), Fresh(0), map[]), B.Claim(0, [ROW], 1, jobs),
                  One(SendingAd(c), LeasedRow(settings), map[TASK := B.Held]))
  {
    var b := One(SendingAd(c), Fresh(0), map[]);
    assert T.LeasedOn(b.ads, b.targets, c) == {};
    assert T.ConnsOf(b.ads, b.targets, [ROW]) == [c];
    assert Admission.Before([c], 0, c) == 0;
    assert Admission.Admits([c], T.BusyOn(b.ads, b.targets, jobs), settings.broadcastInflight, 0);
    assert T.Accepted(b.ads, b.targets, jobs, [ROW], settings.broadcastInflight) == {ROW};
    assert B.TakenInHand(map[], {ROW}, 0) == map[TASK := B.Held];
  }

  lemma Loaded(settings: Settings, c: ConnId)
    ensures Leads(settings, 0, One(SendingAd(c), LeasedRow(settings), map[TASK := B.Held]), B.Load(TASK, true, true),
                  One(SendingAd(c), LeasedRow(settings), map[TASK := B.Armed]))
  {
  }

  lemma Answered(settings: Settings, c: ConnId, r: Report)
    requires !r.Receipt?
    ensures Leads(settings, 0, One(SendingAd(c), LeasedRow(settings), map[TASK := B.Armed]), B.Send(TASK, r),
                  One(SendingAd(c), LeasedRow(settings), map[TASK := B.Sent(r)]))
  {
  }

  /** The ad is composed, given its group, sent, claimed, loaded and posted; Telegram answers `r`. */
  ghost function Prefix(settings: Settings, c: ConnId, r: Report, n: nat): B.Board {
    if n == 0 then B.EMPTY
    else if n == 1 then B.Board(map[AD := NewAd(c)], map[], map[], map[], [])
    else if n == 2 then One(NewAd(c), Fresh(0), map[])
    else if n == 3 then One(SendingAd(c), Fresh(0), map[])
    else if n == 4 then One(SendingAd(c), LeasedRow(settings), map[TASK := B.Held])
    else if n == 5 then One(SendingAd(c), LeasedRow(settings), map[TASK := B.Armed])
    else One(SendingAd(c), LeasedRow(settings), map[TASK := B.Sent(r)])
  }

  function PrefixMove(c: ConnId, r: Report, n: nat): B.Action {
    if n == 0 then B.Compose(AD, NewAd(c))
    else if n == 1 then B.SetTargets(AD, [CHAT], [ROW])
    else if n == 2 then B.SendAd(AD, true)
    else if n == 3 then B.Claim(0, [ROW], 1, J.BusyOn(map[]))
    else if n == 4 then B.Load(TASK, true, true)
    else B.Send(TASK, r)
  }

  lemma PrefixLeads(settings: Settings, c: ConnId, r: Report, n: nat)
    requires settings.broadcastInflight > 0 && n < 6 && !r.Receipt?
    ensures Leads(settings, 0, Prefix(settings, c, r, n), PrefixMove(c, r, n), Prefix(settings, c, r, n + 1))
  {
    if n == 1 {
      Listed(settings, c);
    } else if n == 2 {
      SentOff(settings, c);
    } else if n == 3 {
      assert J.LeasedOn(map[], c) == {};
      Taken(settings, c, J.BusyOn(map[]));
    } else if n == 4 {
      Loaded(settings, c);
    } else if n == 5 {
      Answered(settings, c, r);
    }
  }

  lemma PrefixSteps(cfg: F.Config, c: ConnId, r: Report, n: nat)
    requires cfg.settings.broadcastInflight > 0 && n < 6 && !r.Receipt?
    ensures StepsTo(cfg, With(c, 0, Prefix(cfg.settings, c, r, n)), AdStep(PrefixMove(c, r, n)),
                    With(c, 0, Prefix(cfg.settings, c, r, n + 1)))
  {
    PrefixLeads(cfg.settings, c, r, n);
    BoardStep(cfg, With(c, 0, Prefix(cfg.settings, c, r, n)), PrefixMove(c, r, n), Prefix(cfg.settings, c, r, n + 1));
  }
}
