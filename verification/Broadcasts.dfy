/** Broadcasts, their per-group targets, and the effect of each transaction on them
    (backend/app/repositories/broadcasts.py). */
module Broadcasts {
  import opened Types
  import opened Leases
  import Admission

  datatype AdStatus = AdDraft | AdScheduled | AdSending | AdPaused | AdCompleted | AdCancelled

  datatype PauseReason =
    | NoReason | PausedByCustomer | BeingEdited | FloodWait | LegacyFloodWait | ConnectionLost | AccountSuspended

  /** `repeat` is in seconds; a missing or zero repeat means post once. */
  datatype Ad = Ad(
    conn: ConnId,
    status: AdStatus,
    reason: PauseReason,
    delayMs: nat,
    repeat: Option<nat>,
    rounds: nat,
    scheduledFor: Option<Time>)

  datatype Target = Target(ad: RowId, chat: RowId, position: nat, lease: Lease)

  type AdTable = map<RowId, Ad>
  type TargetTable = map<RowId, Target>

  predicate Repeats(ad: Ad) {
    ad.repeat.Some? && ad.repeat.value > 0
  }

  /** The rows of one ad, and those of them that stand before a given position. */
  function RowsOf(targets: TargetTable, b: RowId): set<RowId> {
    set t | t in targets && targets[t].ad == b
  }

  function PendingOf(targets: TargetTable, b: RowId): set<RowId> {
    set t | t in targets && targets[t].ad == b && targets[t].lease.status == Pending
  }

  function RemainingOf(targets: TargetTable, b: RowId): set<RowId> {
    set t | t in targets && targets[t].ad == b && Unstarted(targets[t].lease)
  }

  function Ahead(targets: TargetTable, rows: set<RowId>, position: nat): set<RowId> {
    set t | t in rows && t in targets && targets[t].position < position
  }

  /** How many of `rows` stand before row `t`. */
  function Rank(targets: TargetTable, rows: set<RowId>, t: RowId): nat
    requires t in targets
  {
    |Ahead(targets, rows, targets[t].position)|
  }

  /** The release time of the row with the given rank. */
  function Slot(start: Time, delayMs: nat, rank: nat): Time {
    start + delayMs * rank * MILLISECOND
  }

  /** `schedule_targets`: the pending rows, in position order, `delay_ms` apart. */
  function Staggered(targets: TargetTable, b: RowId, delayMs: nat, start: Time): (r: TargetTable)
    ensures r.Keys == targets.Keys
    ensures forall t :: t in targets ==>
      r[t] == if t in PendingOf(targets, b)
              then targets[t].(lease := targets[t].lease.(notBefore := Slot(start, delayMs, Rank(targets, PendingOf(targets, b), t))))
              else targets[t]
  {
    map t | t in targets ::
      if t in PendingOf(targets, b)
      then targets[t].(lease := targets[t].lease.(notBefore := Slot(start, delayMs, Rank(targets, PendingOf(targets, b), t))))
      else targets[t]
  }

  /** `reopen_for_repeat`: every row of the ad starts the next round. */
  function Reopened(targets: TargetTable, b: RowId, delayMs: nat, start: Time): (r: TargetTable)
    ensures r.Keys == targets.Keys
    ensures forall t :: t in targets ==>
      r[t] == if targets[t].ad == b
              then targets[t].(lease := Fresh(Slot(start, delayMs, Rank(targets, RowsOf(targets, b), t))))
              else targets[t]
  {
    map t | t in targets ::
      if targets[t].ad == b
      then targets[t].(lease := Fresh(Slot(start, delayMs, Rank(targets, RowsOf(targets, b), t))))
      else targets[t]
  }

  /** Applies `f` to the lease of every target that `on` selects. */
  function Mapped(targets: TargetTable, on: Target -> bool, f: Lease -> Lease): (r: TargetTable)
    ensures r.Keys == targets.Keys
    ensures forall t :: t in targets ==> r[t] == if on(targets[t]) then targets[t].(lease := f(targets[t].lease)) else targets[t]
  {
    map t | t in targets :: if on(targets[t]) then targets[t].(lease := f(targets[t].lease)) else targets[t]
  }

  function CancelledFor(targets: TargetTable, b: RowId): TargetTable {
    Mapped(targets, (t: Target) => t.ad == b, Cancelled)
  }

  function RequeuedFor(targets: TargetTable, b: RowId, now: Time): TargetTable {
    Mapped(targets, (t: Target) => t.ad == b, l => Requeued(l, now))
  }

  predicate AnyRequeueable(targets: TargetTable, b: RowId) {
    exists t :: t in targets && targets[t].ad == b && Requeueable(targets[t].lease)
  }

  predicate OnConnection(ads: AdTable, c: ConnId, t: Target) {
    t.ad in ads && ads[t.ad].conn == c
  }

  function CancelledForConnection(ads: AdTable, targets: TargetTable, c: ConnId): TargetTable {
    Mapped(targets, (t: Target) => OnConnection(ads, c, t), Cancelled)
  }

  /** Ads that are sending on a connection stop, for the given reason. */
  function PausedOn(ads: AdTable, c: ConnId, reason: PauseReason): (r: AdTable)
    ensures r.Keys == ads.Keys
    ensures forall b :: b in ads ==>
      r[b] == if ads[b].conn == c && ads[b].status == AdSending then ads[b].(status := AdPaused, reason := reason) else ads[b]
  {
    map b | b in ads ::
      if ads[b].conn == c && ads[b].status == AdSending then ads[b].(status := AdPaused, reason := reason) else ads[b]
  }

  function ReleasedRows(targets: TargetTable, rows: set<RowId>): (r: TargetTable)
    ensures r.Keys == targets.Keys
    ensures forall t :: t in targets ==>
      r[t] == if t in rows then targets[t].(lease := Released(targets[t].lease)) else targets[t]
  {
    map t | t in targets :: if t in rows then targets[t].(lease := Released(targets[t].lease)) else targets[t]
  }

  function ClaimedRows(targets: TargetTable, rows: set<RowId>, w: WorkerId, deadline: Time): (r: TargetTable)
    ensures r.Keys == targets.Keys
    ensures forall t :: t in targets ==>
      r[t] == if t in rows then targets[t].(lease := Claimed(targets[t].lease, w, deadline)) else targets[t]
  {
    map t | t in targets :: if t in rows then targets[t].(lease := Claimed(targets[t].lease, w, deadline)) else targets[t]
  }

  function Put(targets: TargetTable, t: RowId, l: Lease): TargetTable
    requires t in targets
  {
    targets[t := targets[t].(lease := l)]
  }

  // ------------------------------------------------------------------------
  // The target list
  // ------------------------------------------------------------------------

  /** First occurrences, in order. */
  function Distinct(chats: seq<RowId>): (r: seq<RowId>)
    ensures forall c :: c in r <==> c in chats
    ensures forall i, k :: 0 <= i < k < |r| ==> r[i] != r[k]
  {
    if chats == [] then []
    else
      var front := Distinct(chats[..|chats| - 1]);
      var last := chats[|chats| - 1];
      assert chats == chats[..|chats| - 1] + [last];
      if last in front then front else front + [last]
  }

  predicate HasRow(targets: TargetTable, b: RowId, chat: RowId) {
    exists t :: t in targets && targets[t].ad == b && targets[t].chat == chat
  }

  function IndexOf(s: seq<RowId>, x: RowId): (i: nat)
    requires x in s
    ensures i < |s| && s[i] == x
  {
    if s[0] == x then 0 else 1 + IndexOf(s[1..], x)
  }

  /** Looking a member up does not see what follows it. */
  lemma {:induction false} IndexInFront(s: seq<RowId>, n: nat, x: RowId)
    requires n <= |s| && x in s[..n]
    ensures IndexOf(s, x) == IndexOf(s[..n], x) < n
  {
    if s[0] != x {
      assert s[..n][1..] == s[1..][..n - 1];
      IndexInFront(s[1..], n - 1, x);
    }
  }

  /** The distinct groups stand in the order in which the list first names them. */
  lemma {:induction false} DistinctKeepsOrder(chats: seq<RowId>, i: nat, k: nat)
    requires i < k < |Distinct(chats)|
    ensures IndexOf(chats, Distinct(chats)[i]) < IndexOf(chats, Distinct(chats)[k])
  {
    var n := |chats| - 1;
    var front := Distinct(chats[..n]);
    var a, b := Distinct(chats)[i], Distinct(chats)[k];
    assert a == front[i];
    IndexInFront(chats, n, a);
    if k < |front| {
      DistinctKeepsOrder(chats[..n], i, k);
      IndexInFront(chats, n, b);
    }
  }

  /** `replace_targets`: groups that stay keep their row and everything on it except the position,
      groups that go lose it, and groups that come get the row id at their index in `newIds`. */
  function Selected(targets: TargetTable, b: RowId, wanted: seq<RowId>, newIds: seq<RowId>, now: Time): (r: TargetTable)
    requires |newIds| == |wanted|
    requires forall i, k :: 0 <= i < k < |newIds| ==> newIds[i] != newIds[k]
  {
    (map t | t in targets && (targets[t].ad != b || targets[t].chat in wanted) ::
       if targets[t].ad == b then targets[t].(position := IndexOf(wanted, targets[t].chat)) else targets[t])
    + (map i | 0 <= i < |wanted| && !HasRow(targets, b, wanted[i]) :: newIds[i] := Target(b, wanted[i], i, Fresh(now)))
  }

  /** `drop_chats`: the rows that never succeeded, in every ad of the account. */
  function Dropped(targets: TargetTable, ads: set<RowId>, chats: set<RowId>): (r: TargetTable)
    ensures forall t :: t in r <==> t in targets && !(targets[t].chat in chats && targets[t].lease.status != Succeeded && targets[t].ad in ads)
    ensures forall t :: t in r ==> r[t] == targets[t]
  {
    map t | t in targets && !(targets[t].chat in chats && targets[t].lease.status != Succeeded && targets[t].ad in ads) :: targets[t]
  }

  // ------------------------------------------------------------------------
  // Claiming
  // ------------------------------------------------------------------------

  function LeasedOn(ads: AdTable, targets: TargetTable, c: ConnId): set<RowId> {
    set t | t in targets && targets[t].lease.status == Leased && OnConnection(ads, c, targets[t])
  }

  function InFlight(ads: AdTable, targets: TargetTable, c: ConnId): nat {
    |LeasedOn(ads, targets, c)|
  }

  /** What `claim_batch` may return: distinct due rows of ads that are sending. */
  ghost predicate IsBatch(ads: AdTable, targets: TargetTable, batch: seq<RowId>, now: Time, capacity: nat) {
    && |batch| <= capacity
    && (forall i :: 0 <= i < |batch| ==>
          && batch[i] in targets && Claimable(targets[batch[i]].lease, now)
          && targets[batch[i]].ad in ads && ads[targets[batch[i]].ad].status == AdSending)
    && (forall i, k :: 0 <= i < k < |batch| ==> batch[i] != batch[k])
  }

  function ConnsOf(ads: AdTable, targets: TargetTable, batch: seq<RowId>): (r: seq<ConnId>)
    requires forall i :: 0 <= i < |batch| ==> batch[i] in targets && targets[batch[i]].ad in ads
    ensures |r| == |batch| && forall i :: 0 <= i < |r| ==> r[i] == ads[targets[batch[i]].ad].conn
  {
    seq(|batch|, i requires 0 <= i < |batch| => ads[targets[batch[i]].ad].conn)
  }

  /** Work in flight of both kinds: `jobs` gives the forwarding share. */
  function BusyOn(ads: AdTable, targets: TargetTable, jobs: ConnId -> nat): ConnId -> nat {
    (c: ConnId) => jobs(c) + InFlight(ads, targets, c)
  }

  ghost function Accepted(ads: AdTable, targets: TargetTable, jobs: ConnId -> nat, batch: seq<RowId>, limit: nat): set<RowId>
    requires forall i :: 0 <= i < |batch| ==> batch[i] in targets && targets[batch[i]].ad in ads
  {
    set i | 0 <= i < |batch| && Admission.Admits(ConnsOf(ads, targets, batch), BusyOn(ads, targets, jobs), limit, i) :: batch[i]
  }
}
