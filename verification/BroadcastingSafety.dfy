/** Every action of the broadcast machine keeps its invariants. The proofs work row by row: each
    invariant says something of one row, one task or one pair of rows, and a `Follows` lemma carries
    it to the new state from what the action did to that row. An action that starts no round and
    posts nothing is covered by `Quietly` and the lemmas after it; reopening, settling, sending and
    committing have lemmas of their own, as have the edits of the list of groups, which add and
    remove rows. */
module BroadcastingSafety {
  import opened Types
  import opened Leases
  import opened Delivery
  import opened Broadcasts
  import opened Broadcasting
  import opened Admission

  // ------------------------------------------------------------------------
  // Ads: they keep their connection, and their rounds only go up
  // ------------------------------------------------------------------------

  ghost predicate AdOn(ads: AdTable, ads': AdTable, b: RowId) {
    b in ads ==> b in ads' && ads'[b].conn == ads[b].conn && ads'[b].rounds >= ads[b].rounds
  }

  ghost predicate AdsGoOn(ads: AdTable, ads': AdTable) {
    forall b :: AdOn(ads, ads', b)
  }

  /** Fewer rows leased means fewer in flight. */
  lemma FewerInFlight(settings: Settings, ads: AdTable, targets: TargetTable, ads': AdTable, targets': TargetTable)
    requires CeilingKept(settings, ads, targets)
    requires forall c :: LeasedOn(ads', targets', c) <= LeasedOn(ads, targets, c)
    ensures CeilingKept(settings, ads', targets')
  {
    forall c ensures InFlight(ads', targets', c) <= settings.broadcastInflight {
      SubsetSize(LeasedOn(ads', targets', c), LeasedOn(ads, targets, c));
      assert InFlight(ads, targets, c) <= settings.broadcastInflight;
    }
  }

  lemma AdsFollow(settings: Settings, ads: AdTable, ads': AdTable, targets: TargetTable, notified: seq<(RowId, nat)>)
    requires RowsSound(ads, targets) && CeilingKept(settings, ads, targets) && NotedOnce(ads, notified)
    requires AdsGoOn(ads, ads')
    ensures RowsSound(ads', targets) && CeilingKept(settings, ads', targets) && NotedOnce(ads', notified)
  {
    forall r ensures RowSound(ads', targets, r) {
      assert RowSound(ads, targets, r);
      assert r in targets ==> AdOn(ads, ads', targets[r].ad);
    }
    forall c ensures LeasedOn(ads', targets, c) <= LeasedOn(ads, targets, c) {
      forall r | r in LeasedOn(ads', targets, c) ensures r in LeasedOn(ads, targets, c) {
        assert RowSound(ads, targets, r) && AdOn(ads, ads', targets[r].ad);
      }
    }
    FewerInFlight(settings, ads, targets, ads', targets);
    forall i | 0 <= i < |notified| ensures NotedBefore(ads', notified[i]) {
      assert NotedBefore(ads, notified[i]) && AdOn(ads, ads', notified[i].0);
    }
  }

  lemma AdsKeep(settings: Settings, now: Time, s: Board, ads': AdTable)
    requires Inv(settings, s, now) && AdsGoOn(s.ads, ads')
    ensures Inv(settings, s.(ads := ads'), now)
  {
    AdsFollow(settings, s.ads, ads', s.targets, s.notified);
  }

  lemma AdKeeps(settings: Settings, now: Time, s: Board, b: RowId, ad: Ad)
    requires Inv(settings, s, now)
    requires b in s.ads ==> ad.conn == s.ads[b].conn && ad.rounds >= s.ads[b].rounds
    ensures Inv(settings, SetAd(s, b, ad), now)
  {
    var ads' := s.ads[b := ad];
    forall k ensures AdOn(s.ads, ads', k) {
    }
    AdsKeep(settings, now, s, ads');
  }

  // ------------------------------------------------------------------------
  // Quiet changes: no row appears, nothing is taken in hand, no outcome is written
  // ------------------------------------------------------------------------

  /** A lease that stays, is timed anew while it waits, goes back to the queue, or is cancelled. */
  predicate Quiet(l: Lease, m: Lease) {
    || m == l
    || (l.status in {Pending, Leased, Skipped} && m.status in {Pending, Skipped}
        && m == Lease(m.status, l.attempts, m.notBefore, None, None))
  }

  ghost predicate QuietRow(targets: TargetTable, targets': TargetTable, r: RowId) {
    && (r in targets <==> r in targets')
    && (r in targets ==> targets'[r] == targets[r].(lease := targets'[r].lease) && Quiet(targets[r].lease, targets'[r].lease))
  }

  ghost predicate QuietRows(targets: TargetTable, targets': TargetTable) {
    forall r :: QuietRow(targets, targets', r)
  }

  ghost predicate QuietHand(hands: map<Task, Phase>, hands': map<Task, Phase>, t: Task) {
    && (t in hands' ==> t in hands)
    && (PostedBy(hands', t) <==> PostedBy(hands, t))
  }

  ghost predicate QuietHands(hands: map<Task, Phase>, hands': map<Task, Phase>) {
    forall t :: QuietHand(hands, hands', t)
  }

  ghost predicate Untouched(targets: TargetTable, targets': TargetTable, hands': map<Task, Phase>, t: Task) {
    t in hands' && t.target in targets && t.target in targets' ==>
      targets'[t.target].lease == targets[t.target].lease || targets'[t.target].lease.status == Skipped
  }

  ghost predicate StillHeld(targets: TargetTable, targets': TargetTable, hands': map<Task, Phase>) {
    forall t :: Untouched(targets, targets', hands', t)
  }

  lemma RowsFollow(settings: Settings, ads: AdTable, targets: TargetTable, targets': TargetTable)
    requires RowsSound(ads, targets) && PlacesDistinct(targets) && CeilingKept(settings, ads, targets)
    requires QuietRows(targets, targets')
    ensures RowsSound(ads, targets') && PlacesDistinct(targets') && CeilingKept(settings, ads, targets')
  {
    forall r ensures RowSound(ads, targets', r) {
      assert RowSound(ads, targets, r) && QuietRow(targets, targets', r);
    }
    forall r, u ensures OwnPlace(targets', r, u) {
      assert OwnPlace(targets, r, u) && QuietRow(targets, targets', r) && QuietRow(targets, targets', u);
    }
    forall c ensures LeasedOn(ads, targets', c) <= LeasedOn(ads, targets, c) {
      forall r | r in LeasedOn(ads, targets', c) ensures r in LeasedOn(ads, targets, c) {
        assert QuietRow(targets, targets', r);
      }
    }
    FewerInFlight(settings, ads, targets, ads, targets');
  }

  lemma HandsFollow(targets: TargetTable, hands: map<Task, Phase>, targets': TargetTable, hands': map<Task, Phase>, now: Time)
    requires HandsSound(targets, hands, now) && Exclusive(targets, hands)
    requires QuietRows(targets, targets') && QuietHands(hands, hands') && StillHeld(targets, targets', hands')
    ensures HandsSound(targets', hands', now) && Exclusive(targets', hands')
  {
    forall t ensures HandSound(targets', hands', now, t) {
      assert HandSound(targets, hands, now, t) && QuietRow(targets, targets', t.target);
      assert QuietHand(hands, hands', t) && Untouched(targets, targets', hands', t);
    }
    forall r, w, v ensures OneHolder(targets', hands', r, w, v) {
      assert OneHolder(targets, hands, r, w, v) && QuietRow(targets, targets', r);
      assert QuietHand(hands, hands', Task(w, r)) && QuietHand(hands, hands', Task(v, r));
    }
  }

  lemma SamePosts(hands: map<Task, Phase>, hands': map<Task, Phase>, r: RowId)
    requires forall w :: PostedBy(hands', Task(w, r)) <==> PostedBy(hands, Task(w, r))
    ensures InHandPosted(hands', r) <==> InHandPosted(hands, r)
  {
  }

  lemma TallyFollows(settings: Settings, targets: TargetTable, hands: map<Task, Phase>, tally: map<RowId, Tally>,
                     targets': TargetTable, hands': map<Task, Phase>)
    requires RoundsBalance(targets, hands, tally) && RetriesBounded(settings, targets, tally)
    requires QuietRows(targets, targets') && QuietHands(hands, hands')
    ensures RoundsBalance(targets', hands', tally) && RetriesBounded(settings, targets', tally)
  {
    forall r ensures Balances(targets', hands', tally, r) && RetryBounded(settings, targets', tally, r) {
      assert Balances(targets, hands, tally, r) && RetryBounded(settings, targets, tally, r) && QuietRow(targets, targets', r);
      forall w ensures PostedBy(hands', Task(w, r)) <==> PostedBy(hands, Task(w, r)) {
        assert QuietHand(hands, hands', Task(w, r));
      }
      SamePosts(hands, hands', r);
    }
  }

  lemma Quietly(settings: Settings, now: Time, s: Board, targets': TargetTable, hands': map<Task, Phase>)
    requires Inv(settings, s, now)
    requires QuietRows(s.targets, targets') && QuietHands(s.hands, hands') && StillHeld(s.targets, targets', hands')
    ensures Inv(settings, s.(targets := targets', hands := hands'), now)
  {
    RowsFollow(settings, s.ads, s.targets, targets');
    HandsFollow(s.targets, s.hands, targets', hands', now);
    TallyFollows(settings, s.targets, s.hands, s.tally, targets', hands');
  }

  lemma SameRowsQuiet(targets: TargetTable, hands: map<Task, Phase>)
    ensures QuietRows(targets, targets) && StillHeld(targets, targets, hands)
  {
    forall r ensures QuietRow(targets, targets, r) {
    }
    forall t ensures Untouched(targets, targets, hands, t) {
    }
  }

  lemma SameHandsQuiet(hands: map<Task, Phase>)
    ensures QuietHands(hands, hands)
  {
    forall t ensures QuietHand(hands, hands, t) {
    }
  }

  // ------------------------------------------------------------------------
  // The quiet actions
  // ------------------------------------------------------------------------

  lemma StaggerKeeps(settings: Settings, now: Time, s: Board, b: RowId, delayMs: nat, start: Time)
    requires Inv(settings, s, now)
    ensures Inv(settings, s.(targets := Staggered(s.targets, b, delayMs, start)), now)
  {
    var targets' := Staggered(s.targets, b, delayMs, start);
    forall r ensures QuietRow(s.targets, targets', r) {
      assert RowSound(s.ads, s.targets, r);
    }
    forall t ensures Untouched(s.targets, targets', s.hands, t) {
      assert HandSound(s.targets, s.hands, now, t);
    }
    SameHandsQuiet(s.hands);
    Quietly(settings, now, s, targets', s.hands);
  }

  lemma QueueKeeps(settings: Settings, now: Time, s: Board, b: RowId, start: Time)
    requires Inv(settings, s, now) && b in s.ads
    ensures Inv(settings, Queued(s, b, start), now)
  {
    var ad := s.ads[b].(status := AdSending, reason := NoReason);
    AdKeeps(settings, now, s, b, ad);
    StaggerKeeps(settings, now, SetAd(s, b, ad), b, s.ads[b].delayMs, start);
  }

  lemma CancelKeeps(settings: Settings, now: Time, s: Board, on: Target -> bool)
    requires Inv(settings, s, now)
    ensures Inv(settings, s.(targets := Mapped(s.targets, on, Cancelled)), now)
  {
    var targets' := Mapped(s.targets, on, Cancelled);
    forall r ensures QuietRow(s.targets, targets', r) {
    }
    forall t ensures Untouched(s.targets, targets', s.hands, t) {
    }
    SameHandsQuiet(s.hands);
    Quietly(settings, now, s, targets', s.hands);
  }

  lemma WithdrawKeeps(settings: Settings, now: Time, s: Board, c: ConnId, reason: PauseReason)
    requires Inv(settings, s, now)
    ensures Inv(settings, Withdrawn(s, c, reason), now)
  {
    forall b ensures AdOn(s.ads, PausedOn(s.ads, c, reason), b) {
    }
    CancelKeeps(settings, now, s, (t: Target) => OnConnection(s.ads, c, t));
    AdsKeep(settings, now, s.(targets := CancelledForConnection(s.ads, s.targets, c)), PausedOn(s.ads, c, reason));
  }

  lemma CancelAdKeeps(settings: Settings, now: Time, s: Board, b: RowId)
    requires Inv(settings, s, now) && b in s.ads
    ensures Inv(settings, SetAd(s, b, s.ads[b].(status := AdCancelled)).(targets := CancelledFor(s.targets, b)), now)
  {
    CancelKeeps(settings, now, s, (t: Target) => t.ad == b);
    AdKeeps(settings, now, s.(targets := CancelledFor(s.targets, b)), b, s.ads[b].(status := AdCancelled));
  }

  lemma ReclaimKeeps(settings: Settings, now: Time, s: Board, rows: set<RowId>)
    requires Inv(settings, s, now) && forall r :: r in rows ==> r in s.targets && Lapsed(s.targets[r].lease, now)
    ensures Inv(settings, s.(targets := ReleasedRows(s.targets, rows)), now)
  {
    var targets' := ReleasedRows(s.targets, rows);
    forall r ensures QuietRow(s.targets, targets', r) {
      assert RowSound(s.ads, s.targets, r);
    }
    forall t ensures Untouched(s.targets, targets', s.hands, t) {
      assert HandSound(s.targets, s.hands, now, t);
    }
    SameHandsQuiet(s.hands);
    Quietly(settings, now, s, targets', s.hands);
  }

  /** Moving a task from one phase to another, neither of which has posted anything. */
  lemma PhaseKeeps(settings: Settings, now: Time, s: Board, t: Task, p: Phase)
    requires Inv(settings, s, now) && t in s.hands && s.hands[t] != Sent(Receipt) && p != Sent(Receipt)
    ensures Inv(settings, s.(hands := s.hands[t := p]), now)
  {
    var hands' := s.hands[t := p];
    forall u ensures QuietHand(s.hands, hands', u) {
    }
    SameRowsQuiet(s.targets, hands');
    Quietly(settings, now, s, s.targets, hands');
  }

  lemma SkipKeeps(settings: Settings, now: Time, s: Board, t: Task)
    requires Inv(settings, s, now) && t in s.hands && s.hands[t] != Sent(Receipt) && t.target in s.targets
    ensures Inv(settings, Skip(s, t), now)
  {
    var targets', hands' := Put(s.targets, t.target, Finished(s.targets[t.target].lease, Skipped)), s.hands - {t};
    forall r ensures QuietRow(s.targets, targets', r) {
      assert HandSound(s.targets, s.hands, now, t);
    }
    forall u ensures QuietHand(s.hands, hands', u) && Untouched(s.targets, targets', hands', u) {
    }
    Quietly(settings, now, s, targets', hands');
  }

  // ------------------------------------------------------------------------
  // A new round
  // ------------------------------------------------------------------------

  lemma ReopenKeepsRows(settings: Settings, ads: AdTable, targets: TargetTable, b: RowId, delayMs: nat, start: Time)
    requires RowsSound(ads, targets) && PlacesDistinct(targets) && CeilingKept(settings, ads, targets)
    ensures var targets' := Reopened(targets, b, delayMs, start);
      RowsSound(ads, targets') && PlacesDistinct(targets') && CeilingKept(settings, ads, targets')
  {
    var targets' := Reopened(targets, b, delayMs, start);
    forall r ensures RowSound(ads, targets', r) {
      assert RowSound(ads, targets, r);
    }
    forall r, u ensures OwnPlace(targets', r, u) {
      assert OwnPlace(targets, r, u);
    }
    forall c ensures LeasedOn(ads, targets', c) <= LeasedOn(ads, targets, c) {
    }
    FewerInFlight(settings, ads, targets, ads, targets');
  }

  lemma ReopenKeepsTally(settings: Settings, s: Board, b: RowId, delayMs: nat, start: Time)
    requires RoundsBalance(s.targets, s.hands, s.tally) && RetriesBounded(settings, s.targets, s.tally) && Unheld(s, b, None)
    ensures var targets' := Reopened(s.targets, b, delayMs, start);
      var tally' := Cleared(s.targets, s.tally, RowsOf(s.targets, b));
      RoundsBalance(targets', s.hands, tally') && RetriesBounded(settings, targets', tally')
  {
    var targets' := Reopened(s.targets, b, delayMs, start);
    var tally' := Cleared(s.targets, s.tally, RowsOf(s.targets, b));
    forall r ensures Balances(targets', s.hands, tally', r) && RetryBounded(settings, targets', tally', r) {
      assert Balances(s.targets, s.hands, s.tally, r) && RetryBounded(settings, s.targets, s.tally, r);
      if r in s.targets && s.targets[r].ad == b {
        forall w ensures !PostedBy(s.hands, Task(w, r)) {
        }
      }
    }
  }

  /** With no worker on any target of the ad, a new round starts from a clean slate. */
  lemma ReopenKeeps(settings: Settings, now: Time, s: Board, b: RowId, start: Time)
    requires Inv(settings, s, now) && b in s.ads && Unheld(s, b, None)
    ensures Inv(settings, Reopen(s, b, start), now)
  {
    var targets' := Reopened(s.targets, b, s.ads[b].delayMs, start);
    ReopenKeepsRows(settings, s.ads, s.targets, b, s.ads[b].delayMs, start);
    ReopenKeepsTally(settings, s, b, s.ads[b].delayMs, start);
    forall t ensures HandSound(targets', s.hands, now, t) {
      assert HandSound(s.targets, s.hands, now, t);
    }
    forall r, w, v ensures OneHolder(targets', s.hands, r, w, v) {
      assert OneHolder(s.targets, s.hands, r, w, v);
    }
  }

  lemma NoteKeeps(settings: Settings, now: Time, s: Board, b: RowId, notified': seq<(RowId, nat)>)
    requires Inv(settings, s, now) && b in s.ads
    requires notified' == s.notified || notified' == s.notified + [(b, s.ads[b].rounds + 1)]
    ensures Inv(settings, SetAd(s, b, s.ads[b].(rounds := s.ads[b].rounds + 1)).(notified := notified'), now)
  {
    var ad := s.ads[b].(rounds := s.ads[b].rounds + 1);
    AdKeeps(settings, now, s, b, ad);
    forall i | 0 <= i < |notified'| ensures NotedBefore(s.ads[b := ad], notified'[i]) {
      assert i < |s.notified| ==> NotedBefore(s.ads[b := ad], s.notified[i]);
    }
    forall i, k | 0 <= i < k < |notified'| ensures notified'[i] != notified'[k] {
      assert NotedBefore(s.ads, s.notified[i]);
    }
  }

  lemma SettleKeeps(settings: Settings, now: Time, s: Board, b: RowId, seen: bool)
    requires Inv(settings, s, now) && b in s.ads && (Reopens(s, b, seen) ==> Unheld(s, b, None))
    ensures Inv(settings, Settled(s, b, seen, now), now)
  {
    if seen && RoundOver(s, b) {
      var ad := s.ads[b].(rounds := s.ads[b].rounds + 1);
      var notified' := if RowsOf(s.targets, b) == {} then s.notified else s.notified + [(b, ad.rounds)];
      NoteKeeps(settings, now, s, b, notified');
      var s1 := SetAd(s, b, ad).(notified := notified');
      if Repeats(ad) {
        ReopenKeeps(settings, now, s1, b, now + ad.repeat.value * SECOND);
      } else {
        AdKeeps(settings, now, s1, b, ad.(status := AdCompleted));
      }
    }
  }

  lemma SendAdKeeps(settings: Settings, now: Time, s: Board, b: RowId, valid: bool)
    requires Inv(settings, s, now) && b in s.ads
    requires s.ads[b].status == AdCompleted || s.ads[b].status == AdCancelled ==> Unheld(s, b, None)
    ensures Inv(settings, SentBy(s, b, valid, now), now)
  {
    var ad := s.ads[b];
    var s1 := s;
    if ad.status == AdCompleted || ad.status == AdCancelled {
      ReopenKeeps(settings, now, s, b, now);
      s1 := Reopen(s, b, now);
    }
    if !valid {
    } else if ad.scheduledFor.Some? && ad.scheduledFor.value > now {
      AdKeeps(settings, now, s1, b, ad.(status := AdScheduled));
    } else {
      QueueKeeps(settings, now, s1, b, now);
    }
  }

  // ------------------------------------------------------------------------
  // Heartbeat
  // ------------------------------------------------------------------------

  lemma WriteKeepsRows(settings: Settings, ads: AdTable, targets: TargetTable, r: RowId, l: Lease)
    requires RowsSound(ads, targets) && PlacesDistinct(targets) && CeilingKept(settings, ads, targets)
    requires r in targets && Tidy(l) && (l.status == Leased ==> targets[r].lease.status == Leased)
    ensures RowsSound(ads, Put(targets, r, l)) && PlacesDistinct(Put(targets, r, l))
    ensures CeilingKept(settings, ads, Put(targets, r, l))
  {
    var targets' := Put(targets, r, l);
    forall u ensures RowSound(ads, targets', u) {
      assert RowSound(ads, targets, u);
    }
    forall u, v ensures OwnPlace(targets', u, v) {
      assert OwnPlace(targets, u, v);
    }
    forall c ensures LeasedOn(ads, targets', c) <= LeasedOn(ads, targets, c) {
    }
    FewerInFlight(settings, ads, targets, ads, targets');
  }

  lemma HeartbeatKeeps(settings: Settings, now: Time, s: Board, t: Task)
    requires Inv(settings, s, now) && t in s.hands && t.target in s.targets && settings.leaseTime >= 0
    ensures Inv(settings, Write(s, t.target, Heartbeaten(s.targets[t.target].lease, t.worker, now + settings.leaseTime)), now)
  {
    var l := Heartbeaten(s.targets[t.target].lease, t.worker, now + settings.leaseTime);
    var targets' := Put(s.targets, t.target, l);
    assert RowSound(s.ads, s.targets, t.target);
    WriteKeepsRows(settings, s.ads, s.targets, t.target, l);
    forall u ensures HandSound(targets', s.hands, now, u) {
      assert HandSound(s.targets, s.hands, now, u);
    }
    forall r, w, v ensures OneHolder(targets', s.hands, r, w, v) {
      assert OneHolder(s.targets, s.hands, r, w, v);
    }
    forall r ensures Balances(targets', s.hands, s.tally, r) && RetryBounded(settings, targets', s.tally, r) {
      assert Balances(s.targets, s.hands, s.tally, r) && RetryBounded(settings, s.targets, s.tally, r);
    }
  }

  // ------------------------------------------------------------------------
  // Claiming
  // ------------------------------------------------------------------------

  /** Admission keeps the ceiling: targets get in only while both kinds together leave room. */
  lemma ClaimTakesOnly(ads: AdTable, targets: TargetTable, jobs: ConnId -> nat, batch: seq<RowId>, w: WorkerId, now: Time,
                       capacity: nat, deadline: Time, limit: nat, c: ConnId)
    requires IsBatch(ads, targets, batch, now, capacity)
    ensures LeasedOn(ads, ClaimedRows(targets, Accepted(ads, targets, jobs, batch, limit), w, deadline), c)
         <= LeasedOn(ads, targets, c)
            + TakenOn(ConnsOf(ads, targets, batch), batch, BusyOn(ads, targets, jobs), limit, |batch|, c)
  {
  }

  lemma ClaimKeepsCeilingOn(ads: AdTable, targets: TargetTable, jobs: ConnId -> nat, batch: seq<RowId>, w: WorkerId, now: Time,
                            capacity: nat, deadline: Time, limit: nat, c: ConnId)
    requires IsBatch(ads, targets, batch, now, capacity)
    ensures InFlight(ads, ClaimedRows(targets, Accepted(ads, targets, jobs, batch, limit), w, deadline), c)
         <= Room(jobs(c) + InFlight(ads, targets, c), limit) + InFlight(ads, targets, c)
  {
    var conns, base := ConnsOf(ads, targets, batch), BusyOn(ads, targets, jobs);
    ClaimTakesOnly(ads, targets, jobs, batch, w, now, capacity, deadline, limit, c);
    TakenFits(conns, batch, base, limit, c);
    WithinBoth(LeasedOn(ads, ClaimedRows(targets, Accepted(ads, targets, jobs, batch, limit), w, deadline), c),
               LeasedOn(ads, targets, c), TakenOn(conns, batch, base, limit, |batch|, c));
  }

  lemma ClaimKeepsCeiling(settings: Settings, ads: AdTable, targets: TargetTable, jobs: ConnId -> nat, batch: seq<RowId>,
                          w: WorkerId, now: Time, capacity: nat, deadline: Time)
    requires CeilingKept(settings, ads, targets) && IsBatch(ads, targets, batch, now, capacity)
    ensures CeilingKept(settings, ads,
      ClaimedRows(targets, Accepted(ads, targets, jobs, batch, settings.broadcastInflight), w, deadline))
  {
    var limit := settings.broadcastInflight;
    var targets' := ClaimedRows(targets, Accepted(ads, targets, jobs, batch, limit), w, deadline);
    forall c ensures InFlight(ads, targets', c) <= limit {
      assert InFlight(ads, targets, c) <= limit;
      ClaimKeepsCeilingOn(ads, targets, jobs, batch, w, now, capacity, deadline, limit, c);
    }
  }

  ghost predicate Due(targets: TargetTable, hands: map<Task, Phase>, rows: set<RowId>, r: RowId) {
    r in rows ==> r in targets && targets[r].lease.status == Pending && forall w :: Task(w, r) !in hands
  }

  lemma AcceptedDue(ads: AdTable, targets: TargetTable, hands: map<Task, Phase>, jobs: ConnId -> nat, batch: seq<RowId>,
                    now: Time, capacity: nat, limit: nat)
    requires IsBatch(ads, targets, batch, now, capacity) && HandsSound(targets, hands, now)
    ensures forall r :: Due(targets, hands, Accepted(ads, targets, jobs, batch, limit), r)
  {
    forall r ensures Due(targets, hands, Accepted(ads, targets, jobs, batch, limit), r) {
      if r in Accepted(ads, targets, jobs, batch, limit) {
        forall w ensures Task(w, r) !in hands {
          assert HandSound(targets, hands, now, Task(w, r));
        }
      }
    }
  }

  lemma ClaimKeepsHands(targets: TargetTable, hands: map<Task, Phase>, tally: map<RowId, Tally>, rows: set<RowId>, w: WorkerId,
                        now: Time, deadline: Time)
    requires HandsSound(targets, hands, now) && Exclusive(targets, hands) && RoundsBalance(targets, hands, tally) && now <= deadline
    requires forall r :: Due(targets, hands, rows, r)
    ensures var targets', hands' := ClaimedRows(targets, rows, w, deadline), TakenInHand(hands, rows, w);
      HandsSound(targets', hands', now) && Exclusive(targets', hands') && RoundsBalance(targets', hands', tally)
  {
    var targets', hands' := ClaimedRows(targets, rows, w, deadline), TakenInHand(hands, rows, w);
    forall t ensures HandSound(targets', hands', now, t) {
      assert HandSound(targets, hands, now, t) && Due(targets, hands, rows, t.target);
    }
    forall r, v, u ensures OneHolder(targets', hands', r, v, u) {
      assert OneHolder(targets, hands, r, v, u) && Due(targets, hands, rows, r);
    }
    forall r ensures Balances(targets', hands', tally, r) {
      assert Balances(targets, hands, tally, r) && Due(targets, hands, rows, r);
      SamePosts(hands, hands', r);
    }
  }

  lemma ClaimKeepsRows(settings: Settings, ads: AdTable, targets: TargetTable, hands: map<Task, Phase>, tally: map<RowId, Tally>,
                       rows: set<RowId>, w: WorkerId, deadline: Time)
    requires RowsSound(ads, targets) && PlacesDistinct(targets) && RetriesBounded(settings, targets, tally)
    requires forall r :: Due(targets, hands, rows, r)
    ensures var targets' := ClaimedRows(targets, rows, w, deadline);
      RowsSound(ads, targets') && PlacesDistinct(targets') && RetriesBounded(settings, targets', tally)
  {
    var targets' := ClaimedRows(targets, rows, w, deadline);
    forall r ensures RowSound(ads, targets', r) && RetryBounded(settings, targets', tally, r) {
      assert RowSound(ads, targets, r) && RetryBounded(settings, targets, tally, r) && Due(targets, hands, rows, r);
    }
    forall r, u ensures OwnPlace(targets', r, u) {
      assert OwnPlace(targets, r, u);
    }
  }

  lemma ClaimKeeps(settings: Settings, now: Time, s: Board, w: WorkerId, batch: seq<RowId>, capacity: nat, jobs: ConnId -> nat)
    requires Inv(settings, s, now) && IsBatch(s.ads, s.targets, batch, now, capacity) && settings.leaseTime >= 0
    ensures var rows := Accepted(s.ads, s.targets, jobs, batch, settings.broadcastInflight);
      Inv(settings, s.(targets := ClaimedRows(s.targets, rows, w, now + settings.leaseTime),
                       hands := TakenInHand(s.hands, rows, w)), now)
  {
    var rows := Accepted(s.ads, s.targets, jobs, batch, settings.broadcastInflight);
    var deadline := now + settings.leaseTime;
    AcceptedDue(s.ads, s.targets, s.hands, jobs, batch, now, capacity, settings.broadcastInflight);
    ClaimKeepsRows(settings, s.ads, s.targets, s.hands, s.tally, rows, w, deadline);
    ClaimKeepsHands(s.targets, s.hands, s.tally, rows, w, now, deadline);
    ClaimKeepsCeiling(settings, s.ads, s.targets, jobs, batch, w, now, capacity, deadline);
  }

  // ------------------------------------------------------------------------
  // Sending, crashing, committing
  // ------------------------------------------------------------------------

  lemma NothingPostedYet(targets: TargetTable, hands: map<Task, Phase>, t: Task)
    requires Exclusive(targets, hands) && t in hands && t.target in targets && !PostedBy(hands, t)
    ensures !InHandPosted(hands, t.target)
  {
    forall w ensures !PostedBy(hands, Task(w, t.target)) {
      assert OneHolder(targets, hands, t.target, w, t.worker);
      assert t == Task(t.worker, t.target);
    }
  }

  lemma SendKeepsHands(targets: TargetTable, hands: map<Task, Phase>, tally: map<RowId, Tally>, t: Task, report: Report, now: Time)
    requires HandsSound(targets, hands, now) && Exclusive(targets, hands) && RoundsBalance(targets, hands, tally)
    requires t in hands && hands[t].Armed?
    ensures var hands' := hands[t := Sent(report)];
      HandsSound(targets, hands', now) && Exclusive(targets, hands') && RoundsBalance(targets, hands', Posted(tally, t.target, report))
  {
    var hands', tally' := hands[t := Sent(report)], Posted(tally, t.target, report);
    forall u ensures HandSound(targets, hands', now, u) {
      assert HandSound(targets, hands, now, u);
    }
    forall r, w, v ensures OneHolder(targets, hands', r, w, v) {
      assert OneHolder(targets, hands, r, w, v);
    }
    forall r ensures Balances(targets, hands', tally', r) {
      assert Balances(targets, hands, tally, r) && HandSound(targets, hands, now, t);
      if r == t.target && r in targets {
        NothingPostedYet(targets, hands, t);
        assert PostedBy(hands', Task(t.worker, r)) <==> report.Receipt?;
        if !report.Receipt? {
          SamePosts(hands, hands', r);
        }
      } else if r in targets {
        SamePosts(hands, hands', r);
      }
    }
  }

  lemma CountKeepsRetries(settings: Settings, targets: TargetTable, tally: map<RowId, Tally>, tally': map<RowId, Tally>)
    requires RetriesBounded(settings, targets, tally)
    requires forall r :: r in tally' ==> r in tally && tally'[r].failures == tally[r].failures
    ensures RetriesBounded(settings, targets, tally')
  {
    forall r ensures RetryBounded(settings, targets, tally', r) {
      assert RetryBounded(settings, targets, tally, r);
    }
  }

  lemma SendKeeps(settings: Settings, now: Time, s: Board, t: Task, report: Report)
    requires Inv(settings, s, now) && t in s.hands && s.hands[t].Armed?
    ensures Inv(settings, s.(hands := s.hands[t := Sent(report)], tally := Posted(s.tally, t.target, report)), now)
  {
    SendKeepsHands(s.targets, s.hands, s.tally, t, report, now);
    CountKeepsRetries(settings, s.targets, s.tally, Posted(s.tally, t.target, report));
  }

  /** Dropping a task: what it had posted, if anything, must be written down elsewhere. */
  lemma DropKeepsHands(targets: TargetTable, hands: map<Task, Phase>, t: Task, now: Time)
    requires HandsSound(targets, hands, now) && Exclusive(targets, hands) && t in hands
    ensures HandsSound(targets, hands - {t}, now) && Exclusive(targets, hands - {t})
    ensures t.target in targets ==> !InHandPosted(hands - {t}, t.target)
    ensures forall r :: r != t.target ==> (InHandPosted(hands - {t}, r) <==> InHandPosted(hands, r))
  {
    var hands' := hands - {t};
    forall u ensures HandSound(targets, hands', now, u) {
      assert HandSound(targets, hands, now, u);
    }
    forall r, w, v ensures OneHolder(targets, hands', r, w, v) {
      assert OneHolder(targets, hands, r, w, v);
    }
    if t.target in targets {
      forall w ensures !PostedBy(hands', Task(w, t.target)) {
        assert OneHolder(targets, hands, t.target, w, t.worker) && t == Task(t.worker, t.target);
      }
    }
    forall r | r != t.target ensures InHandPosted(hands', r) <==> InHandPosted(hands, r) {
      SamePosts(hands, hands', r);
    }
  }

  lemma CrashKeeps(settings: Settings, now: Time, s: Board, t: Task)
    requires Inv(settings, s, now) && t in s.hands
    ensures Inv(settings, LetGo(s, t).(tally := if s.hands[t] == Sent(Receipt) then Forgotten(s.tally, t.target) else s.tally), now)
  {
    var hands', tally' := s.hands - {t}, if s.hands[t] == Sent(Receipt) then Forgotten(s.tally, t.target) else s.tally;
    DropKeepsHands(s.targets, s.hands, t, now);
    forall r ensures Balances(s.targets, hands', tally', r) {
      assert Balances(s.targets, s.hands, s.tally, r) && HandSound(s.targets, s.hands, now, t);
      assert t == Task(t.worker, t.target);
      if r == t.target && r in s.targets && !PostedBy(s.hands, t) {
        NothingPostedYet(s.targets, s.hands, t);
      }
    }
    CountKeepsRetries(settings, s.targets, s.tally, tally');
  }

  /** What a commit may write into the row: `succeeded` exactly for a receipt, or another try
      within the retry bound. */
  ghost predicate Committable(settings: Settings, row: Lease, failures: nat, report: Report, l: Lease) {
    && Tidy(l) && l.status != Leased && l.attempts >= row.attempts
    && (report.Receipt? <==> l.status == Succeeded)
    && (if IsRetryFailure(report) then
          l.status == DeadLetter || (l.attempts == row.attempts + 1 && l.attempts < Max(1, settings.maxAttempts))
        else l.status != DeadLetter)
  }

  lemma CommitKeepsTally(settings: Settings, targets: TargetTable, hands: map<Task, Phase>, tally: map<RowId, Tally>,
                         t: Task, l: Lease, now: Time)
    requires HandsSound(targets, hands, now) && Exclusive(targets, hands)
    requires RoundsBalance(targets, hands, tally) && RetriesBounded(settings, targets, tally)
    requires t in hands && hands[t].Sent? && t.target in targets && t.target in tally
    requires Committable(settings, targets[t.target].lease, tally[t.target].failures, hands[t].report, l)
    ensures var targets', hands', tally' := Put(targets, t.target, l), hands - {t}, Charged(tally, t.target, hands[t].report);
      && HandsSound(targets', hands', now) && Exclusive(targets', hands')
      && RoundsBalance(targets', hands', tally') && RetriesBounded(settings, targets', tally')
  {
    var targets', hands', tally' := Put(targets, t.target, l), hands - {t}, Charged(tally, t.target, hands[t].report);
    DropKeepsHands(targets, hands, t, now);
    forall u ensures HandSound(targets', hands', now, u) {
      assert HandSound(targets, hands, now, u) && OneHolder(targets, hands, t.target, u.worker, t.worker);
      assert t == Task(t.worker, t.target) && u == Task(u.worker, u.target);
    }
    forall r, w, v ensures OneHolder(targets', hands', r, w, v) {
      assert OneHolder(targets, hands, r, w, v);
    }
    forall r ensures Balances(targets', hands', tally', r) {
      assert Balances(targets, hands, tally, r) && HandSound(targets, hands, now, t);
      assert t == Task(t.worker, t.target);
      if r == t.target && !PostedBy(hands, t) {
        NothingPostedYet(targets, hands, t);
      }
    }
    forall r ensures RetryBounded(settings, targets', tally', r) {
      assert RetryBounded(settings, targets, tally, r) && HandSound(targets, hands, now, t);
    }
  }

  lemma RowCommitKeeps(settings: Settings, now: Time, s: Board, t: Task, l: Lease)
    requires Inv(settings, s, now) && t in s.hands && s.hands[t].Sent? && t.target in s.targets && t.target in s.tally
    requires Committable(settings, s.targets[t.target].lease, s.tally[t.target].failures, s.hands[t].report, l)
    ensures Inv(settings, s.(targets := Put(s.targets, t.target, l), hands := s.hands - {t},
                             tally := Charged(s.tally, t.target, s.hands[t].report)), now)
  {
    WriteKeepsRows(settings, s.ads, s.targets, t.target, l);
    CommitKeepsTally(settings, s.targets, s.hands, s.tally, t, l, now);
  }

  /** Whatever the taxonomy decides is something a commit may write. */
  lemma DecisionIsCommittable(settings: Settings, row: Lease, failures: nat, report: Report, backoff: Time, now: Time)
    requires Tidy(row)
    ensures Committable(settings, row, failures, report,
      Applied(row, Decide(report, row.attempts, settings.maxAttempts, settings.floodPause, backoff).verdict, now))
  {
  }

  lemma WrittenKeeps(settings: Settings, now: Time, s: Board, t: Task, backoff: Time)
    requires Inv(settings, s, now) && t in s.hands && s.hands[t].Sent? && t.target in s.targets && t.target in s.tally
    requires s.targets[t.target].ad in s.ads
    ensures Inv(settings, Written(settings, s, t, backoff, now), now)
  {
    var d := DecisionFor(settings, s, t, backoff);
    var row := s.targets[t.target].lease;
    var b := s.targets[t.target].ad;
    var l := Applied(row, d.verdict, now);
    assert RowSound(s.ads, s.targets, t.target);
    DecisionIsCommittable(settings, row, s.tally[t.target].failures, s.hands[t].report, backoff, now);
    if d.pausesConnection {
      WithdrawKeeps(settings, now, s, s.ads[b].conn, ConnectionLost);
      RowCommitKeeps(settings, now, Withdrawn(s, s.ads[b].conn, ConnectionLost), t, l);
    } else if d.pausesOwner {
      AdKeeps(settings, now, s, b, s.ads[b].(status := AdPaused, reason := FloodWait));
      RowCommitKeeps(settings, now, SetAd(s, b, s.ads[b].(status := AdPaused, reason := FloodWait)), t, l);
    } else {
      RowCommitKeeps(settings, now, s, t, l);
    }
  }

  /** The commit lets go of its own task; the rest is as free as it was before. */
  lemma WrittenFrees(settings: Settings, now: Time, s: Board, t: Task, backoff: Time, b: RowId)
    requires t in s.hands && s.hands[t].Sent? && t.target in s.targets && t.target in s.tally
    requires s.targets[t.target].ad in s.ads && Unheld(s, b, Some(t))
    ensures Unheld(Written(settings, s, t, backoff, now), b, None)
  {
  }

  lemma SkipFrees(s: Board, t: Task, b: RowId)
    requires t.target in s.targets && Unheld(s, b, Some(t))
    ensures Unheld(Skip(s, t), b, None)
  {
  }

  lemma CommitKeeps(settings: Settings, now: Time, s: Board, t: Task, backoff: Time, seen: bool)
    requires Inv(settings, s, now) && t in s.hands && s.hands[t].Sent? && t.target in s.targets && t.target in s.tally
    requires s.targets[t.target].ad in s.ads
    requires Reopens(Written(settings, s, t, backoff, now), s.targets[t.target].ad, seen) ==>
      Unheld(s, s.targets[t.target].ad, Some(t))
    ensures Inv(settings, Committed(settings, s, t, backoff, seen, now), now)
  {
    var w := Written(settings, s, t, backoff, now);
    WrittenKeeps(settings, now, s, t, backoff);
    if Settles(s.hands[t].report, DecisionFor(settings, s, t, backoff)) {
      var b := s.targets[t.target].ad;
      if Reopens(w, b, seen) {
        WrittenFrees(settings, now, s, t, backoff, b);
      }
      SettleKeeps(settings, now, w, b, seen);
    }
  }

  lemma RefuseKeeps(settings: Settings, now: Time, s: Board, t: Task, seen: bool)
    requires Inv(settings, s, now) && t in s.hands && s.hands[t].Barred? && t.target in s.targets
    requires s.targets[t.target].ad in s.ads
    requires Reopens(Skip(s, t), s.targets[t.target].ad, seen) ==> Unheld(s, s.targets[t.target].ad, Some(t))
    ensures Inv(settings, Settled(Skip(s, t), s.targets[t.target].ad, seen, now), now)
  {
    var b := s.targets[t.target].ad;
    SkipKeeps(settings, now, s, t);
    if Reopens(Skip(s, t), b, seen) {
      SkipFrees(s, t, b);
    }
    SettleKeeps(settings, now, Skip(s, t), b, seen);
  }

  // ------------------------------------------------------------------------
  // Manual retry
  // ------------------------------------------------------------------------

  lemma RequeueKeepsTables(settings: Settings, s: Board, b: RowId, now: Time)
    requires Inv(settings, s, now)
    ensures var targets' := RequeuedFor(s.targets, b, now);
      && RowsSound(s.ads, targets') && PlacesDistinct(targets') && CeilingKept(settings, s.ads, targets')
      && HandsSound(targets', s.hands, now) && Exclusive(targets', s.hands)
  {
    var targets' := RequeuedFor(s.targets, b, now);
    forall r ensures RowSound(s.ads, targets', r) {
      assert RowSound(s.ads, s.targets, r);
    }
    forall r, u ensures OwnPlace(targets', r, u) {
      assert OwnPlace(s.targets, r, u);
    }
    forall c ensures LeasedOn(s.ads, targets', c) <= LeasedOn(s.ads, s.targets, c) {
    }
    FewerInFlight(settings, s.ads, s.targets, s.ads, targets');
    forall t ensures HandSound(targets', s.hands, now, t) {
      assert HandSound(s.targets, s.hands, now, t);
    }
    forall r, w, v ensures OneHolder(targets', s.hands, r, w, v) {
      assert OneHolder(s.targets, s.hands, r, w, v);
    }
  }

  lemma RetryKeeps(settings: Settings, now: Time, s: Board, b: RowId)
    requires Inv(settings, s, now) && b in s.ads
    ensures Inv(settings, Retried(s, b, now), now)
  {
    var targets' := RequeuedFor(s.targets, b, now);
    var tally' := Forgiven(s.targets, s.tally, b);
    RequeueKeepsTables(settings, s, b, now);
    forall r ensures Balances(targets', s.hands, tally', r) && RetryBounded(settings, targets', tally', r) {
      assert Balances(s.targets, s.hands, s.tally, r) && RetryBounded(settings, s.targets, s.tally, r);
    }
    QueueKeeps(settings, now, s.(targets := targets', tally := tally'), b, now);
  }

  // ------------------------------------------------------------------------
  // The target list
  // ------------------------------------------------------------------------

  /** The row of one group after the list is replaced: kept with its outcome if the group stays,
      gone if it goes, fresh if it comes. */
  lemma SelectedRow(targets: TargetTable, b: RowId, wanted: seq<RowId>, newIds: seq<RowId>, now: Time, r: RowId)
    requires |newIds| == |wanted|
    requires forall i, k :: 0 <= i < k < |newIds| ==> newIds[i] != newIds[k]
    requires forall i :: 0 <= i < |newIds| ==> newIds[i] !in targets
    ensures var after := Selected(targets, b, wanted, newIds, now);
      && (r in targets && (targets[r].ad != b || targets[r].chat in wanted) ==>
            r in after && after[r] == targets[r].(position := after[r].position)
            && (targets[r].ad != b ==> after[r] == targets[r]))
      && (r in targets && targets[r].ad == b && targets[r].chat !in wanted ==> r !in after)
      && (r in after && r !in targets ==>
            r in newIds && after[r].ad == b && after[r].lease == Fresh(now)
            && after[r].chat in wanted && !HasRow(targets, b, after[r].chat))
      && (r in after && after[r].ad == b ==> after[r].position < |wanted| && wanted[after[r].position] == after[r].chat)
      && (r in after && r !in targets ==> newIds[after[r].position] == r)
  {
  }

  lemma SelectedPlaces(targets: TargetTable, b: RowId, wanted: seq<RowId>, newIds: seq<RowId>, now: Time)
    requires PlacesDistinct(targets)
    requires |newIds| == |wanted|
    requires forall i, k :: 0 <= i < k < |wanted| ==> wanted[i] != wanted[k]
    requires forall i, k :: 0 <= i < k < |newIds| ==> newIds[i] != newIds[k]
    requires forall i :: 0 <= i < |newIds| ==> newIds[i] !in targets
    ensures PlacesDistinct(Selected(targets, b, wanted, newIds, now))
  {
    var after := Selected(targets, b, wanted, newIds, now);
    forall r, u ensures OwnPlace(after, r, u) {
      assert OwnPlace(targets, r, u);
      SelectedRow(targets, b, wanted, newIds, now, r);
      SelectedRow(targets, b, wanted, newIds, now, u);
    }
  }

  /** One row when the list changes: it keeps its ad and its lease, or it is new and untouched. */
  ghost predicate ListedRow(ads: AdTable, hands: map<Task, Phase>, targets: TargetTable, targets': TargetTable, r: RowId) {
    r in targets' ==>
      if r in targets then targets'[r].ad == targets[r].ad && targets'[r].lease == targets[r].lease
      else targets'[r].ad in ads && targets'[r].lease.status == Pending && Tidy(targets'[r].lease)
           && forall w :: Task(w, r) !in hands
  }

  lemma ListKeeps(settings: Settings, now: Time, s: Board, targets': TargetTable)
    requires Inv(settings, s, now) && PlacesDistinct(targets')
    requires forall r :: ListedRow(s.ads, s.hands, s.targets, targets', r)
    ensures Inv(settings, s.(targets := targets', tally := Opened(targets', s.tally)), now)
  {
    forall r ensures RowSound(s.ads, targets', r) {
      assert RowSound(s.ads, s.targets, r) && ListedRow(s.ads, s.hands, s.targets, targets', r);
    }
    forall c ensures LeasedOn(s.ads, targets', c) <= LeasedOn(s.ads, s.targets, c) {
      forall r | r in LeasedOn(s.ads, targets', c) ensures r in LeasedOn(s.ads, s.targets, c) {
        assert ListedRow(s.ads, s.hands, s.targets, targets', r);
      }
    }
    FewerInFlight(settings, s.ads, s.targets, s.ads, targets');
    ListKeepsHands(settings, now, s, targets');
  }

  lemma ListKeepsHands(settings: Settings, now: Time, s: Board, targets': TargetTable)
    requires HandsSound(s.targets, s.hands, now) && Exclusive(s.targets, s.hands)
    requires RoundsBalance(s.targets, s.hands, s.tally) && RetriesBounded(settings, s.targets, s.tally)
    requires forall r :: ListedRow(s.ads, s.hands, s.targets, targets', r)
    ensures HandsSound(targets', s.hands, now) && Exclusive(targets', s.hands)
    ensures RoundsBalance(targets', s.hands, Opened(targets', s.tally))
    ensures RetriesBounded(settings, targets', Opened(targets', s.tally))
  {
    var tally' := Opened(targets', s.tally);
    forall t ensures HandSound(targets', s.hands, now, t) {
      assert HandSound(s.targets, s.hands, now, t) && ListedRow(s.ads, s.hands, s.targets, targets', t.target);
    }
    forall r, w, v ensures OneHolder(targets', s.hands, r, w, v) {
      assert OneHolder(s.targets, s.hands, r, w, v) && ListedRow(s.ads, s.hands, s.targets, targets', r);
    }
    forall r ensures Balances(targets', s.hands, tally', r) && RetryBounded(settings, targets', tally', r) {
      assert Balances(s.targets, s.hands, s.tally, r) && RetryBounded(settings, s.targets, s.tally, r);
      assert ListedRow(s.ads, s.hands, s.targets, targets', r);
      if r in targets' && r !in s.targets {
        forall w ensures !PostedBy(s.hands, Task(w, r)) {
        }
      }
    }
  }

  lemma SetTargetsKeeps(settings: Settings, now: Time, s: Board, b: RowId, wanted: seq<RowId>, newIds: seq<RowId>)
    requires Inv(settings, s, now) && b in s.ads && |newIds| == |wanted|
    requires forall i, k :: 0 <= i < k < |wanted| ==> wanted[i] != wanted[k]
    requires forall i, k :: 0 <= i < k < |newIds| ==> newIds[i] != newIds[k]
    requires forall i :: 0 <= i < |newIds| ==> newIds[i] !in s.targets
    requires forall i :: 0 <= i < |newIds| ==> forall w :: Task(w, newIds[i]) !in s.hands
    ensures var targets' := Selected(s.targets, b, wanted, newIds, now);
      Inv(settings, s.(targets := targets', tally := Opened(targets', s.tally)), now)
  {
    var targets' := Selected(s.targets, b, wanted, newIds, now);
    SelectedPlaces(s.targets, b, wanted, newIds, now);
    forall r ensures ListedRow(s.ads, s.hands, s.targets, targets', r) {
      SelectedRow(s.targets, b, wanted, newIds, now, r);
    }
    ListKeeps(settings, now, s, targets');
  }

  lemma DropChatsKeeps(settings: Settings, now: Time, s: Board, ads: set<RowId>, chats: set<RowId>)
    requires Inv(settings, s, now)
    ensures var targets' := Dropped(s.targets, ads, chats);
      Inv(settings, s.(targets := targets', tally := Opened(targets', s.tally)), now)
  {
    var targets' := Dropped(s.targets, ads, chats);
    forall r, u ensures OwnPlace(targets', r, u) {
      assert OwnPlace(s.targets, r, u);
    }
    forall r ensures ListedRow(s.ads, s.hands, s.targets, targets', r) {
    }
    ListKeeps(settings, now, s, targets');
  }

  // ------------------------------------------------------------------------
  // Every action, and time
  // ------------------------------------------------------------------------

  lemma CustomerStepKeeps(settings: Settings, now: Time, s: Board, a: Action)
    requires Inv(settings, s, now) && Enabled(settings, now, s, a) && ByCustomer(a)
    ensures Inv(settings, Apply(settings, now, s, a), now)
  {
    match a
    case Compose(b, value) => AdKeeps(settings, now, s, b, value);
    case EditAd(b, delayMs, repeat, scheduledFor) =>
      AdKeeps(settings, now, s, b, s.ads[b].(delayMs := delayMs, repeat := repeat, scheduledFor := scheduledFor));
    case SetTargets(b, chats, newIds) => SetTargetsKeeps(settings, now, s, b, Distinct(chats), newIds);
    case DropChats(ads, chats) => DropChatsKeeps(settings, now, s, ads, chats);
    case SendAd(b, valid) => SendAdKeeps(settings, now, s, b, valid);
    case PauseAd(b, reason) => AdKeeps(settings, now, s, b, s.ads[b].(status := AdPaused, reason := reason));
    case ResumeAd(b) => QueueKeeps(settings, now, s, b, now);
    case CancelAd(b) => CancelAdKeeps(settings, now, s, b);
    case RetryAd(b) =>
      if AnyRequeueable(s.targets, b) {
        RetryKeeps(settings, now, s, b);
      }
    case _ =>
  }

  lemma AutomaticStepKeeps(settings: Settings, now: Time, s: Board, a: Action)
    requires Inv(settings, s, now) && Enabled(settings, now, s, a) && !ByCustomer(a) && settings.leaseTime >= 0
    ensures Inv(settings, Apply(settings, now, s, a), now)
  {
    match a
    case StartScheduled(b, valid) =>
      if valid {
        QueueKeeps(settings, now, s, b, now);
      } else {
        AdKeeps(settings, now, s, b, s.ads[b].(status := AdDraft));
      }
    case FloodResume(b) => AdKeeps(settings, now, s, b, s.ads[b].(status := AdSending, reason := NoReason));
    case Claim(w, batch, capacity, jobs) => ClaimKeeps(settings, now, s, w, batch, capacity, jobs);
    case Heartbeat(t) => HeartbeatKeeps(settings, now, s, t);
    case Load(t, passes, active) =>
      PhaseKeeps(settings, now, s, t, if passes then Armed else Barred(s.ads[s.targets[t.target].ad].status == AdSending));
    case Refuse(t, seen) => RefuseKeeps(settings, now, s, t, seen);
    case Send(t, report) => SendKeeps(settings, now, s, t, report);
    case Commit(t, backoff, seen) => CommitKeeps(settings, now, s, t, backoff, seen);
    case Crash(t) => CrashKeeps(settings, now, s, t);
    case Reclaim(rows) => ReclaimKeeps(settings, now, s, rows);
    case Withdraw(c, reason) => WithdrawKeeps(settings, now, s, c, reason);
    case _ =>
  }

  lemma StepKeeps(settings: Settings, now: Time, s: Board, a: Action)
    requires Inv(settings, s, now) && Enabled(settings, now, s, a) && settings.leaseTime >= 0
    ensures Inv(settings, Apply(settings, now, s, a), now)
  {
    if ByCustomer(a) {
      CustomerStepKeeps(settings, now, s, a);
    } else {
      AutomaticStepKeeps(settings, now, s, a);
    }
  }

  lemma TimeKeeps(settings: Settings, now: Time, later: Time, s: Board)
    requires Inv(settings, s, now) && now <= later && HeartbeatsKept(s, later)
    ensures Inv(settings, s, later)
  {
    forall t ensures HandSound(s.targets, s.hands, later, t) {
      assert HandSound(s.targets, s.hands, now, t);
    }
  }

  lemma EmptyKeeps(settings: Settings, now: Time)
    ensures Inv(settings, EMPTY, now)
  {
    forall c ensures InFlight(EMPTY.ads, EMPTY.targets, c) == 0 {
      assert LeasedOn(EMPTY.ads, EMPTY.targets, c) == {};
    }
    forall r ensures RowSound(EMPTY.ads, EMPTY.targets, r) && Balances(EMPTY.targets, EMPTY.hands, EMPTY.tally, r)
                  && RetryBounded(settings, EMPTY.targets, EMPTY.tally, r) {
    }
    forall r, u ensures OwnPlace(EMPTY.targets, r, u) {
    }
    forall t ensures HandSound(EMPTY.targets, EMPTY.hands, now, t) {
    }
    forall r, w, v ensures OneHolder(EMPTY.targets, EMPTY.hands, r, w, v) {
    }
  }
}
