/** What each broadcast step writes, column by column. */
module AdEffects {
  // The rows of backend/app/repositories/broadcasts.py, the ads of backend/app/services/broadcast.py
  // and of the ad actions in backend/app/adminbot/handlers.py. Times are in microseconds.

  import opened Types
  import opened Leases
  import opened Delivery
  import opened Broadcasts
  import opened Broadcasting
  import opened Outcomes
  import Admission

  // ------------------------------------------------------------------------
  // Rows
  // ------------------------------------------------------------------------

  predicate OnlyLease(before: Target, after: Target) {
    after == before.(lease := after.lease)
  }

  predicate Unfinished(l: Lease) {
    l.status == Pending || l.status == Leased
  }

  /** What a customer's retry queues again. */
  predicate DidNotArrive(l: Lease) {
    l.status == Failed || l.status == NeedsAttention || l.status == DeadLetter
  }

  /** Skipped if it had not come to an end, and untouched if it had. */
  predicate CancelledRow(before: Target, after: Target) {
    after == if Unfinished(before.lease) then
               before.(lease := Lease(Skipped, before.lease.attempts, before.lease.notBefore, None, None))
             else before
  }

  predicate SameRows(targets: TargetTable, targets': TargetTable, except: set<RowId>) {
    targets'.Keys == targets.Keys && forall r :: r in targets && r !in except ==> targets'[r] == targets[r]
  }

  /** The other ads are as they were. */
  predicate SameAds(ads: AdTable, ads': AdTable, except: RowId) {
    ads'.Keys == ads.Keys && forall k :: k in ads && k != except ==> ads'[k] == ads[k]
  }

  /** The time of a row that has `place` rows of its round before it. */
  function TimeOf(start: Time, delayMs: nat, place: nat): Time {
    start + delayMs * place * 1_000
  }

  /** How many rows of the ad stand before row `r`, and how many of those that wait. */
  function Place(targets: TargetTable, b: RowId, r: RowId): nat
    requires r in targets
  {
    |set u | u in targets && targets[u].ad == b && targets[u].position < targets[r].position|
  }

  function WaitingPlace(targets: TargetTable, b: RowId, r: RowId): nat
    requires r in targets
  {
    |set u | u in targets && targets[u].ad == b && targets[u].lease.status == Pending && targets[u].position < targets[r].position|
  }

  /** The place among the rows that wait once what did not arrive is queued again. */
  function RetryPlace(targets: TargetTable, b: RowId, r: RowId): nat
    requires r in targets
  {
    |set u | u in targets && targets[u].ad == b && (targets[u].lease.status == Pending || DidNotArrive(targets[u].lease))
             && targets[u].position < targets[r].position|
  }

  // ------------------------------------------------------------------------
  // Queueing a round
  // ------------------------------------------------------------------------

  /** A waiting row of the ad gets the time of its place; any other stays as it was. */
  predicate RetimedRow(targets: TargetTable, targets': TargetTable, b: RowId, delayMs: nat, start: Time, r: RowId) {
    r in targets ==>
      && r in targets'
      && targets'[r] == if targets[r].ad == b && targets[r].lease.status == Pending then
                          targets[r].(lease := targets[r].lease.(notBefore := TimeOf(start, delayMs, WaitingPlace(targets, b, r))))
                        else targets[r]
  }

  /** A row of the ad starts afresh, at the time of its place; any other stays as it was. */
  predicate RestartedRow(targets: TargetTable, targets': TargetTable, b: RowId, delayMs: nat, start: Time, r: RowId) {
    r in targets ==>
      && r in targets'
      && targets'[r] == if targets[r].ad == b then
                          targets[r].(lease := Lease(Pending, 0, TimeOf(start, delayMs, Place(targets, b, r)), None, None))
                        else targets[r]
  }

  lemma StaggeredRow(targets: TargetTable, b: RowId, delayMs: nat, start: Time, r: RowId)
    requires r in targets
    ensures Staggered(targets, b, delayMs, start).Keys == targets.Keys
    ensures RetimedRow(targets, Staggered(targets, b, delayMs, start), b, delayMs, start, r)
  {
    assert Ahead(targets, PendingOf(targets, b), targets[r].position)
        == set u | u in targets && targets[u].ad == b && targets[u].lease.status == Pending && targets[u].position < targets[r].position;
  }

  lemma ReopenedRow(targets: TargetTable, b: RowId, delayMs: nat, start: Time, r: RowId)
    requires r in targets
    ensures Reopened(targets, b, delayMs, start).Keys == targets.Keys
    ensures RestartedRow(targets, Reopened(targets, b, delayMs, start), b, delayMs, start, r)
  {
    assert Ahead(targets, RowsOf(targets, b), targets[r].position)
        == set u | u in targets && targets[u].ad == b && targets[u].position < targets[r].position;
  }

  /** Rows that have all started afresh keep their time when they are queued at once. */
  lemma RestartedThenRetimed(targets: TargetTable, b: RowId, delayMs: nat, start: Time, r: RowId)
    requires r in targets
    ensures RestartedRow(targets, Staggered(Reopened(targets, b, delayMs, start), b, delayMs, start), b, delayMs, start, r)
  {
    var middle := Reopened(targets, b, delayMs, start);
    ReopenedRow(targets, b, delayMs, start, r);
    StaggeredRow(middle, b, delayMs, start, r);
    assert (set u | u in middle && middle[u].ad == b && middle[u].lease.status == Pending && middle[u].position < middle[r].position)
        == (set u | u in targets && targets[u].ad == b && targets[u].position < targets[r].position);
  }

  lemma QueuedWrites(s: Board, b: RowId, start: Time, r: RowId)
    requires b in s.ads && r in s.targets
    ensures var s' := Queued(s, b, start);
      && s'.targets.Keys == s.targets.Keys && RetimedRow(s.targets, s'.targets, b, s.ads[b].delayMs, start, r)
      && SameAds(s.ads, s'.ads, b) && s'.ads[b] == s.ads[b].(status := AdSending, reason := NoReason)
  {
    StaggeredRow(s.targets, b, s.ads[b].delayMs, start, r);
  }

  /** Resuming sets the ad sending and times what waits from now. */
  lemma ResumeWrites(settings: Settings, now: Time, s: Board, b: RowId, r: RowId)
    requires Enabled(settings, now, s, ResumeAd(b)) && r in s.targets
    ensures var s' := Apply(settings, now, s, ResumeAd(b));
      && s'.targets.Keys == s.targets.Keys && RetimedRow(s.targets, s'.targets, b, s.ads[b].delayMs, now, r)
      && SameAds(s.ads, s'.ads, b) && s'.ads[b] == s.ads[b].(status := AdSending, reason := NoReason)
  {
    QueuedWrites(s, b, now, r);
  }

  /** The scheduler starts an ad that still validates, and makes a draft of one that does not. */
  lemma StartWrites(settings: Settings, now: Time, s: Board, b: RowId, valid: bool, r: RowId)
    requires Enabled(settings, now, s, StartScheduled(b, valid)) && r in s.targets
    ensures s.ads[b].status == AdScheduled && s.ads[b].scheduledFor.Some? && s.ads[b].scheduledFor.value <= now
    ensures var s' := Apply(settings, now, s, StartScheduled(b, valid));
      && s'.targets.Keys == s.targets.Keys && SameAds(s.ads, s'.ads, b)
      && (if valid then RetimedRow(s.targets, s'.targets, b, s.ads[b].delayMs, now, r)
                        && s'.ads[b] == s.ads[b].(status := AdSending, reason := NoReason)
          else s'.targets == s.targets && s'.ads[b] == s.ads[b].(status := AdDraft))
  {
    QueuedWrites(s, b, now, r);
  }

  /** Sending an ad sets it sending, or scheduled if its time is still to come, unless it does not
      validate. */
  lemma SendWritesAd(settings: Settings, now: Time, s: Board, b: RowId, valid: bool)
    requires Enabled(settings, now, s, SendAd(b, valid))
    ensures var ads' := Apply(settings, now, s, SendAd(b, valid)).ads;
      var ad := s.ads[b];
      && SameAds(s.ads, ads', b)
      && ads'[b] == (if !valid then ad
                     else if ad.scheduledFor.Some? && ad.scheduledFor.value > now then ad.(status := AdScheduled)
                     else ad.(status := AdSending, reason := NoReason))
  {
  }

  /** Sending an ad that is over starts every row afresh, valid or not; sending any other times what
      waits from now, unless it is only scheduled or refused. */
  lemma SendWritesRow(settings: Settings, now: Time, s: Board, b: RowId, valid: bool, r: RowId)
    requires Enabled(settings, now, s, SendAd(b, valid)) && r in s.targets
    ensures var targets' := Apply(settings, now, s, SendAd(b, valid)).targets;
      var ad := s.ads[b];
      && targets'.Keys == s.targets.Keys
      && (if ad.status == AdCompleted || ad.status == AdCancelled then RestartedRow(s.targets, targets', b, ad.delayMs, now, r)
          else if valid && !(ad.scheduledFor.Some? && ad.scheduledFor.value > now)
          then RetimedRow(s.targets, targets', b, ad.delayMs, now, r)
          else targets' == s.targets)
  {
    var delayMs := s.ads[b].delayMs;
    ReopenedRow(s.targets, b, delayMs, now, r);
    StaggeredRow(s.targets, b, delayMs, now, r);
    RestartedThenRetimed(s.targets, b, delayMs, now, r);
  }

  // ------------------------------------------------------------------------
  // The customer's other actions
  // ------------------------------------------------------------------------

  lemma PauseWrites(settings: Settings, now: Time, s: Board, b: RowId, reason: PauseReason)
    requires Enabled(settings, now, s, PauseAd(b, reason))
    ensures var s' := Apply(settings, now, s, PauseAd(b, reason));
      && s'.targets == s.targets && s'.hands == s.hands && s'.tally == s.tally
      && SameAds(s.ads, s'.ads, b) && s'.ads[b] == s.ads[b].(status := AdPaused, reason := reason)
  {
  }

  lemma EditWrites(settings: Settings, now: Time, s: Board, b: RowId, delayMs: nat, repeat: Option<nat>, scheduledFor: Option<Time>)
    requires Enabled(settings, now, s, EditAd(b, delayMs, repeat, scheduledFor))
    ensures var s' := Apply(settings, now, s, EditAd(b, delayMs, repeat, scheduledFor));
      && s'.targets == s.targets && s'.hands == s.hands && SameAds(s.ads, s'.ads, b)
      && s'.ads[b] == s.ads[b].(delayMs := delayMs, repeat := repeat, scheduledFor := scheduledFor)
  {
  }

  /** Dropping groups removes their rows that never succeeded, in the given ads, and nothing else. */
  lemma DropWrites(settings: Settings, now: Time, s: Board, dropped: set<RowId>, chats: set<RowId>, r: RowId)
    requires Enabled(settings, now, s, DropChats(dropped, chats))
    ensures var s' := Apply(settings, now, s, DropChats(dropped, chats));
      && s'.ads == s.ads && s'.hands == s.hands
      && (r in s'.targets <==>
            r in s.targets && !(s.targets[r].ad in dropped && s.targets[r].chat in chats && s.targets[r].lease.status != Succeeded))
      && (r in s'.targets ==> s'.targets[r] == s.targets[r])
  {
  }

  /** Cancelling skips exactly what has not come to an end. */
  lemma CancelWrites(settings: Settings, now: Time, s: Board, b: RowId, r: RowId)
    requires Enabled(settings, now, s, CancelAd(b)) && r in s.targets
    ensures var s' := Apply(settings, now, s, CancelAd(b));
      && s'.targets.Keys == s.targets.Keys
      && (if s.targets[r].ad == b then CancelledRow(s.targets[r], s'.targets[r]) else s'.targets[r] == s.targets[r])
      && SameAds(s.ads, s'.ads, b) && s'.ads[b] == s.ads[b].(status := AdCancelled)
  {
  }

  /** One row of an ad that is retried: what did not arrive is queued with no attempts and no owner,
      and whatever waits gets the time of its place. */
  predicate RetriedRow(targets: TargetTable, targets': TargetTable, b: RowId, delayMs: nat, now: Time, r: RowId) {
    r in targets ==>
      && r in targets'
      && var at := TimeOf(now, delayMs, RetryPlace(targets, b, r));
         targets'[r] == if targets[r].ad == b && DidNotArrive(targets[r].lease) then
                          targets[r].(lease := Lease(Pending, 0, at, None, targets[r].lease.expires))
                        else if targets[r].ad == b && targets[r].lease.status == Pending then
                          targets[r].(lease := targets[r].lease.(notBefore := at))
                        else targets[r]
  }

  lemma RequeuedThenRetimed(targets: TargetTable, b: RowId, delayMs: nat, now: Time, r: RowId)
    requires r in targets
    ensures var targets' := Staggered(RequeuedFor(targets, b, now), b, delayMs, now);
      targets'.Keys == targets.Keys && RetriedRow(targets, targets', b, delayMs, now, r)
  {
    var middle := RequeuedFor(targets, b, now);
    StaggeredRow(middle, b, delayMs, now, r);
    assert (set u | u in middle && middle[u].ad == b && middle[u].lease.status == Pending && middle[u].position < middle[r].position)
        == (set u | u in targets && targets[u].ad == b && (targets[u].lease.status == Pending || DidNotArrive(targets[u].lease))
                    && targets[u].position < targets[r].position);
  }

  /** Retrying queues exactly what did not arrive and sets the ad sending; succeeded and skipped rows
      and other ads stay as they were, and with nothing to retry so does everything. */
  lemma RetryWrites(settings: Settings, now: Time, s: Board, b: RowId, r: RowId)
    requires Enabled(settings, now, s, RetryAd(b)) && r in s.targets
    ensures var s' := Apply(settings, now, s, RetryAd(b));
      && s'.targets.Keys == s.targets.Keys && SameAds(s.ads, s'.ads, b)
      && (if exists u :: u in s.targets && s.targets[u].ad == b && DidNotArrive(s.targets[u].lease)
          then RetriedRow(s.targets, s'.targets, b, s.ads[b].delayMs, now, r)
               && s'.ads[b] == s.ads[b].(status := AdSending, reason := NoReason)
          else s' == s)
  {
    RequeuedThenRetimed(s.targets, b, s.ads[b].delayMs, now, r);
    assert AnyRequeueable(s.targets, b) <==> exists u :: u in s.targets && s.targets[u].ad == b && DidNotArrive(s.targets[u].lease);
  }

  /** A retry that did anything leaves the ad sending with a target waiting. */
  lemma RetryLeavesWork(settings: Settings, now: Time, s: Board, b: RowId, u: RowId)
    requires Enabled(settings, now, s, RetryAd(b))
    requires u in s.targets && s.targets[u].ad == b && DidNotArrive(s.targets[u].lease)
    ensures var s' := Apply(settings, now, s, RetryAd(b));
      && b in s'.ads && s'.ads[b].status == AdSending
      && u in s'.targets && s'.targets[u].ad == b && s'.targets[u].lease.status == Pending && s'.targets[u].lease.attempts == 0
  {
    RetryWrites(settings, now, s, b, u);
  }

  /** A group that joins the list waits, due now, with no attempts and no lease. */
  lemma ListWrites(settings: Settings, now: Time, s: Board, b: RowId, chats: seq<RowId>, newIds: seq<RowId>, r: RowId)
    requires Enabled(settings, now, s, SetTargets(b, chats, newIds))
    ensures var targets' := Apply(settings, now, s, SetTargets(b, chats, newIds)).targets;
      && (r in targets' && r !in s.targets ==>
            targets'[r].ad == b && targets'[r].chat in chats && targets'[r].lease == Lease(Pending, 0, now, None, None))
      && (r in targets' && r in s.targets ==> targets'[r] == s.targets[r].(position := targets'[r].position))
      && (r in s.targets && r !in targets' ==> s.targets[r].ad == b && s.targets[r].chat !in chats)
  {
    var wanted := Distinct(chats);
    assert forall c :: c in wanted <==> c in chats;
  }

  // ------------------------------------------------------------------------
  // Leases
  // ------------------------------------------------------------------------

  predicate ClaimedRow(before: Target, after: Target, w: WorkerId, deadline: Time) {
    after == before.(lease := Lease(Leased, before.lease.attempts, before.lease.notBefore, Some(w), Some(deadline)))
  }

  predicate KnownRows(s: Board, batch: seq<RowId>) {
    forall k :: 0 <= k < |batch| ==> batch[k] in s.targets && s.targets[batch[k]].ad in s.ads
  }

  predicate AdmittedAt(settings: Settings, s: Board, batch: seq<RowId>, jobs: ConnId -> nat, i: nat)
    requires i < |batch| && KnownRows(s, batch)
  {
    Admission.Admits(ConnsOf(s.ads, s.targets, batch), BusyOn(s.ads, s.targets, jobs), settings.broadcastInflight, i)
  }

  lemma BatchIsDue(settings: Settings, now: Time, s: Board, w: WorkerId, batch: seq<RowId>, capacity: nat, jobs: ConnId -> nat, i: nat)
    requires Enabled(settings, now, s, Claim(w, batch, capacity, jobs)) && i < |batch|
    ensures KnownRows(s, batch)
    ensures s.targets[batch[i]].lease.status == Pending && s.targets[batch[i]].lease.notBefore <= now
    ensures s.ads[s.targets[batch[i]].ad].status == AdSending
    ensures forall k, m :: 0 <= k < m < |batch| ==> batch[k] != batch[m]
  {
  }

  lemma AcceptedExactly(settings: Settings, s: Board, batch: seq<RowId>, jobs: ConnId -> nat, i: nat)
    requires i < |batch| && KnownRows(s, batch)
    requires forall k, m :: 0 <= k < m < |batch| ==> batch[k] != batch[m]
    ensures batch[i] in Accepted(s.ads, s.targets, jobs, batch, settings.broadcastInflight) <==> AdmittedAt(settings, s, batch, jobs, i)
  {
  }

  lemma ClaimTables(settings: Settings, now: Time, s: Board, w: WorkerId, batch: seq<RowId>, capacity: nat, jobs: ConnId -> nat)
    requires Enabled(settings, now, s, Claim(w, batch, capacity, jobs)) && KnownRows(s, batch)
    ensures var rows := Accepted(s.ads, s.targets, jobs, batch, settings.broadcastInflight);
      var s' := Apply(settings, now, s, Claim(w, batch, capacity, jobs));
      && s'.targets == ClaimedRows(s.targets, rows, w, now + settings.leaseTime)
      && s'.hands == TakenInHand(s.hands, rows, w) && s'.ads == s.ads
  {
  }

  lemma TakenRow(s: Board, rows: set<RowId>, w: WorkerId, deadline: Time, r: RowId)
    requires r in s.targets
    ensures var targets' := ClaimedRows(s.targets, rows, w, deadline);
      if r in rows then ClaimedRow(s.targets[r], targets'[r], w, deadline) && Task(w, r) in TakenInHand(s.hands, rows, w)
      else targets'[r] == s.targets[r]
  {
  }

  /** A claim leases due rows of ads that are sending, up to the room of each connection, and takes
      exactly those in hand; the others stay as they were. */
  lemma ClaimWrites(settings: Settings, now: Time, s: Board, w: WorkerId, batch: seq<RowId>, capacity: nat, jobs: ConnId -> nat, i: nat)
    requires Enabled(settings, now, s, Claim(w, batch, capacity, jobs)) && i < |batch|
    ensures KnownRows(s, batch)
    ensures var s' := Apply(settings, now, s, Claim(w, batch, capacity, jobs));
      var row := s.targets[batch[i]];
      && row.lease.status == Pending && row.lease.notBefore <= now && s.ads[row.ad].status == AdSending
      && batch[i] in s'.targets
      && (if AdmittedAt(settings, s, batch, jobs, i)
          then ClaimedRow(row, s'.targets[batch[i]], w, now + settings.leaseTime) && Task(w, batch[i]) in s'.hands
          else s'.targets[batch[i]] == row)
  {
    BatchIsDue(settings, now, s, w, batch, capacity, jobs, i);
    ClaimTables(settings, now, s, w, batch, capacity, jobs);
    AcceptedExactly(settings, s, batch, jobs, i);
    TakenRow(s, Accepted(s.ads, s.targets, jobs, batch, settings.broadcastInflight), w, now + settings.leaseTime, batch[i]);
  }

  predicate Extended(before: Target, after: Target, w: WorkerId, deadline: Time) {
    after == if before.lease.owner == Some(w) then before.(lease := before.lease.(expires := Some(deadline))) else before
  }

  /** For a whole lease time after its heartbeat the holder's row cannot be reclaimed, and the holder
      keeps nobody else waiting. */
  lemma HeartbeatExtends(settings: Settings, now: Time, s: Board, t: Task, later: Time)
    requires Enabled(settings, now, s, Heartbeat(t))
    requires s.targets[t.target].lease.status == Leased && s.targets[t.target].lease.owner == Some(t.worker)
    requires now <= later <= now + settings.leaseTime
    ensures var s' := Apply(settings, now, s, Heartbeat(t));
      && s'.targets[t.target].lease.expires == Some(now + settings.leaseTime)
      && Extended(s.targets[t.target], s'.targets[t.target], t.worker, now + settings.leaseTime)
      && SameRows(s.targets, s'.targets, {t.target}) && s'.hands == s.hands
      && (forall rows :: t.target in rows ==> !Enabled(settings, later, s', Reclaim(rows)))
      && ((forall u :: u in s.hands && u.target != t.target && u.target in s.targets && s.targets[u.target].lease.expires.Some?
             ==> later <= s.targets[u.target].lease.expires.value) ==> HeartbeatsKept(s', later))
  {
  }

  lemma ReclaimWrites(settings: Settings, now: Time, s: Board, rows: set<RowId>, r: RowId)
    requires Enabled(settings, now, s, Reclaim(rows)) && r in rows
    ensures var targets' := Apply(settings, now, s, Reclaim(rows)).targets;
      && r in s.targets && s.targets[r].lease.status == Leased
      && s.targets[r].lease.expires.Some? && s.targets[r].lease.expires.value < now
      && SameRows(s.targets, targets', rows)
      && targets'[r] == s.targets[r].(lease := Lease(Pending, s.targets[r].lease.attempts, s.targets[r].lease.notBefore, None, None))
  {
  }

  lemma LapsedIsReclaimable(settings: Settings, now: Time, s: Board, r: RowId)
    requires r in s.targets && s.targets[r].lease.status == Leased
    requires s.targets[r].lease.expires.Some? && s.targets[r].lease.expires.value < now
    ensures Enabled(settings, now, s, Reclaim({r}))
  {
  }

  /** The sweep resumes an ad that is paused for a wait once one of its targets is due, and only then. */
  lemma SweepWrites(settings: Settings, now: Time, s: Board, b: RowId)
    ensures Enabled(settings, now, s, FloodResume(b)) <==>
      (b in s.ads && s.ads[b].status == AdPaused && (s.ads[b].reason == FloodWait || s.ads[b].reason == LegacyFloodWait)
       && exists r :: r in s.targets && s.targets[r].ad == b && s.targets[r].lease.status == Pending && s.targets[r].lease.notBefore <= now)
    ensures Enabled(settings, now, s, FloodResume(b)) ==>
      var s' := Apply(settings, now, s, FloodResume(b));
      && s'.targets == s.targets && SameAds(s.ads, s'.ads, b) && s'.ads[b] == s.ads[b].(status := AdSending, reason := NoReason)
  {
    if exists r :: r in s.targets && s.targets[r].ad == b && s.targets[r].lease.status == Pending && s.targets[r].lease.notBefore <= now {
      var r :| r in s.targets && s.targets[r].ad == b && s.targets[r].lease.status == Pending && s.targets[r].lease.notBefore <= now;
      assert r in PendingOf(s.targets, b);
    }
  }

  // ------------------------------------------------------------------------
  // The end of a round
  // ------------------------------------------------------------------------

  /** No row of the ad is waiting or leased. */
  ghost predicate Over(s: Board, b: RowId) {
    forall r :: r in s.targets && s.targets[r].ad == b ==> !Unfinished(s.targets[r].lease)
  }

  ghost predicate HasGroups(s: Board, b: RowId) {
    exists r :: r in s.targets && s.targets[r].ad == b
  }

  predicate PostsAgain(ad: Ad) {
    ad.repeat.Some? && ad.repeat.value > 0
  }

  lemma OverExactly(s: Board, b: RowId)
    ensures RoundOver(s, b) <==> Over(s, b)
    ensures RowsOf(s.targets, b) != {} <==> HasGroups(s, b)
  {
    if RoundOver(s, b) {
      forall r | r in s.targets && s.targets[r].ad == b ensures !Unfinished(s.targets[r].lease) {
        assert r !in RemainingOf(s.targets, b);
      }
    }
    if HasGroups(s, b) {
      var r :| r in s.targets && s.targets[r].ad == b;
      assert r in RowsOf(s.targets, b);
    }
  }

  /** Settling counts a round that is over, reports it if it had any group, and either starts every row
      afresh from the end of the repeat interval or completes the ad. */
  lemma SettleWrites(s: Board, b: RowId, seen: bool, now: Time)
    requires b in s.ads
    ensures var s' := Settled(s, b, seen, now);
      var ad := s.ads[b];
      if seen && Over(s, b) then
        && SameAds(s.ads, s'.ads, b)
        && s'.ads[b] == ad.(rounds := ad.rounds + 1, status := if PostsAgain(ad) then ad.status else AdCompleted)
        && s'.notified == (if HasGroups(s, b) then s.notified + [(b, ad.rounds + 1)] else s.notified)
        && (!PostsAgain(ad) ==> s'.targets == s.targets)
      else s' == s
  {
    OverExactly(s, b);
  }

  lemma SettleWritesRow(s: Board, b: RowId, seen: bool, now: Time, r: RowId)
    requires b in s.ads && r in s.targets
    ensures var targets' := Settled(s, b, seen, now).targets;
      && targets'.Keys == s.targets.Keys
      && (if seen && Over(s, b) && PostsAgain(s.ads[b])
          then RestartedRow(s.targets, targets', b, s.ads[b].delayMs, now + s.ads[b].repeat.value * 1_000_000, r)
          else targets'[r] == s.targets[r])
  {
    OverExactly(s, b);
    if Reopens(s, b, seen) {
      ReopenedRow(s.targets, b, s.ads[b].delayMs, now + s.ads[b].repeat.value * 1_000_000, r);
    }
  }

  // ------------------------------------------------------------------------
  // The outcome of a post
  // ------------------------------------------------------------------------

  predicate Gone(r: Report) {
    r.Refused? && r.cls == Auth
  }

  /** The report pauses the ad: a wait of at least the threshold. */
  predicate PausesAd(settings: Settings, r: Report) {
    r.Refused? && r.cls == RateLimit && (if r.wait.Some? then r.wait.value else 60_000_000) >= settings.floodPause
  }

  /** The report ends the work on the row in a way that may end the round. */
  predicate MayEndRound(r: Report, attempts: nat, limit: nat) {
    r.Receipt? || (r.Refused? && r.cls != Auth && r.cls != RateLimit && (RetryFailure(r) ==> attempts + 1 >= limit))
  }

  /** What is written before the round is looked at: the row, the ads, and on an unauthorized report
      everything unfinished on the connection. */
  lemma WrittenRow(settings: Settings, now: Time, s: Board, t: Task, backoff: Time)
    requires t in s.hands && s.hands[t].Sent? && t.target in s.targets && t.target in s.tally
    requires s.targets[t.target].ad in s.ads && IsBackoff(s.targets[t.target].lease.attempts, backoff)
    ensures var w := Written(settings, s, t, backoff, now);
      && w.targets.Keys == s.targets.Keys && OnlyLease(s.targets[t.target], w.targets[t.target])
      && Outcome(s.targets[t.target].lease, w.targets[t.target].lease, s.hands[t].report, settings.maxAttempts, now)
  {
    var l := s.targets[t.target].lease;
    LimitAtLeastOne(l, s.hands[t].report, settings, backoff);
    DecisionIsOutcome(l, s.hands[t].report, settings.maxAttempts, settings.floodPause, backoff, now);
  }

  /** A limit of none and a limit of one come to the same. */
  lemma LimitAtLeastOne(l: Lease, r: Report, settings: Settings, backoff: Time)
    ensures Decide(r, l.attempts, settings.maxAttempts, settings.floodPause, backoff)
         == Decide(r, l.attempts, Max(1, settings.maxAttempts), settings.floodPause, backoff)
  {
  }

  lemma WrittenElsewhere(settings: Settings, now: Time, s: Board, t: Task, backoff: Time, r: RowId)
    requires t in s.hands && s.hands[t].Sent? && t.target in s.targets && t.target in s.tally
    requires s.targets[t.target].ad in s.ads && r in s.targets && r != t.target
    ensures var targets' := Written(settings, s, t, backoff, now).targets;
      if Gone(s.hands[t].report) && s.targets[r].ad in s.ads && s.ads[s.targets[r].ad].conn == s.ads[s.targets[t.target].ad].conn
      then CancelledRow(s.targets[r], targets'[r]) else targets'[r] == s.targets[r]
  {
  }

  lemma WrittenAds(settings: Settings, now: Time, s: Board, t: Task, backoff: Time, k: RowId)
    requires t in s.hands && s.hands[t].Sent? && t.target in s.targets && t.target in s.tally
    requires s.targets[t.target].ad in s.ads && k in s.ads
    ensures var ads' := Written(settings, s, t, backoff, now).ads;
      var r, b := s.hands[t].report, s.targets[t.target].ad;
      && ads'.Keys == s.ads.Keys
      && ads'[k] == (if Gone(r) && s.ads[k].conn == s.ads[b].conn && s.ads[k].status == AdSending
                     then s.ads[k].(status := AdPaused, reason := ConnectionLost)
                     else if PausesAd(settings, r) && k == b then s.ads[k].(status := AdPaused, reason := FloodWait)
                     else s.ads[k])
  {
  }

  /** A commit is that, and then, if the report may end the round, the settling of it. */
  lemma CommitSettles(settings: Settings, now: Time, s: Board, t: Task, backoff: Time, seen: bool)
    requires Enabled(settings, now, s, Commit(t, backoff, seen))
    ensures var s' := Apply(settings, now, s, Commit(t, backoff, seen));
      var w := Written(settings, s, t, backoff, now);
      && t !in s'.hands
      && s' == (if MayEndRound(s.hands[t].report, s.targets[t.target].lease.attempts, settings.maxAttempts)
                then Settled(w, s.targets[t.target].ad, seen, now) else w)
  {
  }

  /** The row waits afresh, for the next round of an ad that repeats. */
  predicate NextRound(before: Target, after: Target, ad: Ad, now: Time) {
    && PostsAgain(ad) && after == before.(lease := after.lease)
    && after.lease == Lease(Pending, 0, after.lease.notBefore, None, None)
    && after.lease.notBefore >= now + ad.repeat.value * 1_000_000
  }

  lemma SettledRow(s: Board, b: RowId, seen: bool, now: Time, r: RowId)
    requires b in s.ads && r in s.targets
    ensures var targets' := Settled(s, b, seen, now).targets;
      r in targets' && (targets'[r] == s.targets[r] || (seen && NextRound(s.targets[r], targets'[r], s.ads[b], now)))
  {
    SettleWritesRow(s, b, seen, now, r);
  }

  lemma WrittenKeepsRepeat(settings: Settings, now: Time, s: Board, t: Task, backoff: Time)
    requires t in s.hands && s.hands[t].Sent? && t.target in s.targets && t.target in s.tally
    requires s.targets[t.target].ad in s.ads
    ensures var b := s.targets[t.target].ad;
      b in Written(settings, s, t, backoff, now).ads && Written(settings, s, t, backoff, now).ads[b].repeat == s.ads[b].repeat
  {
    WrittenAds(settings, now, s, t, backoff, s.targets[t.target].ad);
  }

  /** What one commit writes to the row of the target: the outcome of its report, unless the round
      that it ends starts again at once. */
  lemma CommitWrites(settings: Settings, now: Time, s: Board, t: Task, backoff: Time, seen: bool)
    requires Enabled(settings, now, s, Commit(t, backoff, seen))
    ensures t.target in Apply(settings, now, s, Commit(t, backoff, seen)).targets
    ensures var before, after := s.targets[t.target], Apply(settings, now, s, Commit(t, backoff, seen)).targets[t.target];
      var r := s.hands[t].report;
      || (OnlyLease(before, after) && Outcome(before.lease, after.lease, r, settings.maxAttempts, now))
      || (seen && MayEndRound(r, before.lease.attempts, settings.maxAttempts) && NextRound(before, after, s.ads[before.ad], now))
  {
    var w, k := Written(settings, s, t, backoff, now), s.targets[t.target].ad;
    WrittenRow(settings, now, s, t, backoff);
    WrittenKeepsRepeat(settings, now, s, t, backoff);
    CommitSettles(settings, now, s, t, backoff, seen);
    SettledRow(w, k, seen, now, t.target);
  }

  /** A target whose guards refuse it is skipped. */
  lemma SkipWrites(s: Board, t: Task)
    requires t.target in s.targets
    ensures var s' := Skip(s, t);
      && OnlyLease(s.targets[t.target], s'.targets[t.target]) && Ends(s.targets[t.target].lease, s'.targets[t.target].lease, Skipped)
      && SameRows(s.targets, s'.targets, {t.target}) && t !in s'.hands && s'.ads == s.ads
  {
  }

  /** A refusal is that, and then the settling of the round. */
  lemma RefuseWrites(settings: Settings, now: Time, s: Board, t: Task, seen: bool)
    requires Enabled(settings, now, s, Refuse(t, seen))
    ensures Apply(settings, now, s, Refuse(t, seen)) == Settled(Skip(s, t), s.targets[t.target].ad, seen, now)
  {
  }

  /** A target passes the guards only on a connection that was active and for an ad that is sending. */
  lemma GuardsHold(settings: Settings, now: Time, s: Board, t: Task, passes: bool, active: bool)
    requires Enabled(settings, now, s, Load(t, passes, active))
    ensures passes ==> active && s.ads[s.targets[t.target].ad].status == AdSending
    ensures Apply(settings, now, s, Load(t, passes, active)).hands[t]
         == if passes then Armed else Barred(s.ads[s.targets[t.target].ad].status == AdSending)
  {
  }

  lemma WithdrawWrites(s: Board, c: ConnId, reason: PauseReason, r: RowId, k: RowId)
    ensures var s' := Withdrawn(s, c, reason);
      && s'.targets.Keys == s.targets.Keys && s'.ads.Keys == s.ads.Keys
      && (r in s.targets ==>
            if s.targets[r].ad in s.ads && s.ads[s.targets[r].ad].conn == c then CancelledRow(s.targets[r], s'.targets[r])
            else s'.targets[r] == s.targets[r])
      && (k in s.ads ==>
            s'.ads[k] == if s.ads[k].conn == c && s.ads[k].status == AdSending
                         then s.ads[k].(status := AdPaused, reason := reason) else s.ads[k])
  {
  }
}
