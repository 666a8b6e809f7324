/** The broadcast half of the delivery engine as a transition system
    (backend/app/services/broadcast.py, backend/app/scheduler.py, the ad actions of the panel).

    Processing a target is three transactions' worth of steps: the row, its ad and its connection
    are loaded and the guards decided on what was read then; the message is sent; the outcome is
    committed. The ad object loaded first is the one that settling looks at, so settling may see
    the status of that moment or the current one: `seen` stands for whichever it is. */
module Broadcasting {
  import opened Types
  import opened Leases
  import opened Delivery
  import opened Broadcasts

  datatype Task = Task(worker: WorkerId, target: RowId)

  datatype Phase =
    | Held
    | Armed
    | Barred(wasSending: bool)
    | Sent(report: Report)

  /** One target's current round: confirmed posts, those of them a crash forgot, and the retry
      failures since the round began or a customer retried. */
  datatype Tally = Tally(posts: nat, lost: nat, failures: nat)

  const NOTHING_YET := Tally(0, 0, 0)

  datatype Board = Board(
    ads: AdTable,
    targets: TargetTable,
    hands: map<Task, Phase>,
    tally: map<RowId, Tally>,
    notified: seq<(RowId, nat)>)

  const EMPTY: Board := Board(map[], map[], map[], map[], [])

  datatype Action =
    | Compose(ad: RowId, value: Ad)
    | EditAd(ad: RowId, delayMs: nat, repeat: Option<nat>, scheduledFor: Option<Time>)
    | SetTargets(ad: RowId, chats: seq<RowId>, newIds: seq<RowId>)
    | DropChats(ads: set<RowId>, dropped: set<RowId>)
    | SendAd(ad: RowId, valid: bool)
    | PauseAd(ad: RowId, reason: PauseReason)
    | ResumeAd(ad: RowId)
    | CancelAd(ad: RowId)
    | RetryAd(ad: RowId)
    | StartScheduled(ad: RowId, valid: bool)
    | FloodResume(ad: RowId)
    | Claim(worker: WorkerId, batch: seq<RowId>, capacity: nat, jobs: ConnId -> nat)
    | Heartbeat(task: Task)
    | Load(task: Task, passes: bool, connActive: bool)
    | Refuse(task: Task, seen: bool)
    | Send(task: Task, report: Report)
    | Commit(task: Task, backoff: Time, seen: bool)
    | Crash(task: Task)
    | Reclaim(rows: set<RowId>)
    | Withdraw(conn: ConnId, reason: PauseReason)

  predicate ByCustomer(a: Action) {
    || a.Compose? || a.EditAd? || a.SetTargets? || a.DropChats? || a.SendAd?
    || a.PauseAd? || a.ResumeAd? || a.CancelAd? || a.RetryAd?
  }

  /** The assumption behind every new round: a worker acts only on a target it still holds, so
      none but the one now committing has a target of this ad in hand. */
  ghost predicate Unheld(s: Board, b: RowId, except: Option<Task>) {
    forall t :: t in s.hands && t.target in s.targets && s.targets[t.target].ad == b ==> except == Some(t)
  }

  // ------------------------------------------------------------------------
  // Effects
  // ------------------------------------------------------------------------

  ghost function Write(s: Board, t: RowId, l: Lease): Board
    requires t in s.targets
  {
    s.(targets := Put(s.targets, t, l))
  }

  ghost function LetGo(s: Board, t: Task): Board {
    s.(hands := s.hands - {t})
  }

  ghost function SetAd(s: Board, b: RowId, ad: Ad): Board {
    s.(ads := s.ads[b := ad])
  }

  /** Every target of the ad starts a new round, staggered from `start`. */
  ghost function Reopen(s: Board, b: RowId, start: Time): Board
    requires b in s.ads
  {
    s.(targets := Reopened(s.targets, b, s.ads[b].delayMs, start),
       tally := Cleared(s.targets, s.tally, RowsOf(s.targets, b)))
  }

  ghost function Cleared(targets: TargetTable, tally: map<RowId, Tally>, rows: set<RowId>): map<RowId, Tally> {
    map t | t in tally :: if t in rows then NOTHING_YET else tally[t]
  }

  /** Validated and handed to the worker: pending rows are timed from `start`. */
  ghost function Queued(s: Board, b: RowId, start: Time): Board
    requires b in s.ads
  {
    SetAd(s, b, s.ads[b].(status := AdSending, reason := NoReason)).(
      targets := Staggered(s.targets, b, s.ads[b].delayMs, start))
  }

  ghost predicate RoundOver(s: Board, b: RowId) {
    RemainingOf(s.targets, b) == {}
  }

  /** Finishing the round: count it, report it once if it had any target, and either reopen or
      complete. Nothing happens while targets remain, or if the ad was not sending. */
  ghost function Settled(s: Board, b: RowId, seen: bool, now: Time): Board
    requires b in s.ads
  {
    if !seen || !RoundOver(s, b) then s
    else
      var ad := s.ads[b].(rounds := s.ads[b].rounds + 1);
      var s1 := SetAd(s, b, ad).(notified := if RowsOf(s.targets, b) == {} then s.notified else s.notified + [(b, ad.rounds)]);
      if Repeats(ad) then Reopen(s1, b, now + ad.repeat.value * SECOND)
      else SetAd(s1, b, ad.(status := AdCompleted))
  }

  ghost predicate Reopens(s: Board, b: RowId, seen: bool) {
    b in s.ads && seen && RoundOver(s, b) && Repeats(s.ads[b])
  }

  ghost function Withdrawn(s: Board, c: ConnId, reason: PauseReason): Board {
    s.(ads := PausedOn(s.ads, c, reason), targets := CancelledForConnection(s.ads, s.targets, c))
  }

  ghost function DecisionFor(settings: Settings, s: Board, t: Task, backoff: Time): Decision
    requires t in s.hands && s.hands[t].Sent? && t.target in s.targets
  {
    Decide(s.hands[t].report, s.targets[t.target].lease.attempts, settings.maxAttempts, settings.floodPause, backoff)
  }

  /** The commit before settling: the row is written, the task let go, a retry failure charged. */
  ghost function Written(settings: Settings, s: Board, t: Task, backoff: Time, now: Time): Board
    requires t in s.hands && s.hands[t].Sent? && t.target in s.targets && t.target in s.tally
    requires s.targets[t.target].ad in s.ads
  {
    var d := DecisionFor(settings, s, t, backoff);
    var b := s.targets[t.target].ad;
    var l := Applied(s.targets[t.target].lease, d.verdict, now);
    var rest :=
      if d.pausesConnection then Withdrawn(s, s.ads[b].conn, ConnectionLost)
      else if d.pausesOwner then SetAd(s, b, s.ads[b].(status := AdPaused, reason := FloodWait))
      else s;
    rest.(targets := Put(rest.targets, t.target, l),
          hands := s.hands - {t},
          tally := Charged(s.tally, t.target, s.hands[t].report))
  }

  ghost function Charged(tally: map<RowId, Tally>, t: RowId, report: Report): map<RowId, Tally>
    requires t in tally
  {
    if IsRetryFailure(report) then tally[t := tally[t].(failures := tally[t].failures + 1)] else tally
  }

  /** Which reports settle the round: an ambiguous or an unauthorized one does not, nor does one
      that leads to another try. */
  predicate Settles(r: Report, d: Decision) {
    d.verdict.Done? && !r.Ambiguous? && !d.pausesConnection
  }

  ghost function Committed(settings: Settings, s: Board, t: Task, backoff: Time, seen: bool, now: Time): Board
    requires t in s.hands && s.hands[t].Sent? && t.target in s.targets && t.target in s.tally
    requires s.targets[t.target].ad in s.ads
  {
    var w := Written(settings, s, t, backoff, now);
    if Settles(s.hands[t].report, DecisionFor(settings, s, t, backoff))
    then Settled(w, s.targets[t.target].ad, seen, now) else w
  }

  /** A target that the guards refused: skipped, then the round may be over. */
  ghost function Skip(s: Board, t: Task): Board
    requires t.target in s.targets
  {
    LetGo(Write(s, t.target, Finished(s.targets[t.target].lease, Skipped)), t)
  }

  ghost function Posted(tally: map<RowId, Tally>, t: RowId, report: Report): map<RowId, Tally> {
    if report.Receipt? && t in tally then tally[t := tally[t].(posts := tally[t].posts + 1)] else tally
  }

  ghost function Forgotten(tally: map<RowId, Tally>, t: RowId): map<RowId, Tally> {
    if t in tally then tally[t := tally[t].(lost := tally[t].lost + 1)] else tally
  }

  /** A blank tally for every row that has none yet, and none for rows that are gone. */
  ghost function Opened(targets: TargetTable, tally: map<RowId, Tally>): map<RowId, Tally> {
    map t | t in targets :: if t in tally then tally[t] else NOTHING_YET
  }

  ghost function TakenInHand(hands: map<Task, Phase>, rows: set<RowId>, w: WorkerId): map<Task, Phase> {
    hands + map t | t in rows :: Task(w, t) := Held
  }

  ghost function Retried(s: Board, b: RowId, now: Time): Board
    requires b in s.ads
  {
    Queued(s.(targets := RequeuedFor(s.targets, b, now), tally := Forgiven(s.targets, s.tally, b)), b, now)
  }

  /** A retried row starts its count of failures afresh. */
  ghost function Forgiven(targets: TargetTable, tally: map<RowId, Tally>, b: RowId): map<RowId, Tally> {
    map t | t in tally ::
      if t in targets && targets[t].ad == b && Requeueable(targets[t].lease) then tally[t].(failures := 0) else tally[t]
  }

  ghost function SentBy(s: Board, b: RowId, valid: bool, now: Time): Board
    requires b in s.ads
  {
    var ad := s.ads[b];
    var s1 := if ad.status == AdCompleted || ad.status == AdCancelled then Reopen(s, b, now) else s;
    if !valid then s1
    else if ad.scheduledFor.Some? && ad.scheduledFor.value > now then SetAd(s1, b, ad.(status := AdScheduled))
    else Queued(s1, b, now)
  }

  // ------------------------------------------------------------------------
  // The machine
  // ------------------------------------------------------------------------

  /** What settling may have seen: the status at loading, or the status now. */
  predicate MaySee(seen: bool, loaded: bool, current: AdStatus) {
    seen == loaded || seen == (current == AdSending)
  }

  ghost predicate Enabled(settings: Settings, now: Time, s: Board, a: Action) {
    match a
    case Compose(b, value) => b !in s.ads && value.status == AdDraft && value.rounds == 0
    case EditAd(b, _, _, _) => b in s.ads
    case SetTargets(b, chats, newIds) =>
      && b in s.ads && |newIds| == |Distinct(chats)|
      && (forall i :: 0 <= i < |newIds| ==> newIds[i] !in s.targets && newIds[i] !in s.tally)
      && (forall i :: 0 <= i < |newIds| ==> forall w :: Task(w, newIds[i]) !in s.hands)
      && (forall i, k :: 0 <= i < k < |newIds| ==> newIds[i] != newIds[k])
    case DropChats(_, _) => true
    case SendAd(b, _) =>
      b in s.ads && (s.ads[b].status == AdCompleted || s.ads[b].status == AdCancelled ==> Unheld(s, b, None))
    case PauseAd(b, reason) => b in s.ads && (reason == PausedByCustomer || reason == BeingEdited)
    case ResumeAd(b) => b in s.ads
    case CancelAd(b) => b in s.ads
    case RetryAd(b) => b in s.ads
    case StartScheduled(b, _) =>
      b in s.ads && s.ads[b].status == AdScheduled && s.ads[b].scheduledFor.Some? && s.ads[b].scheduledFor.value <= now
    case FloodResume(b) =>
      && b in s.ads && s.ads[b].status == AdPaused && (s.ads[b].reason == FloodWait || s.ads[b].reason == LegacyFloodWait)
      && exists t :: t in PendingOf(s.targets, b) && s.targets[t].lease.notBefore <= now
    case Claim(w, batch, capacity, _) => IsBatch(s.ads, s.targets, batch, now, capacity)
    case Heartbeat(t) => t in s.hands && t.target in s.targets
    case Load(t, passes, active) =>
      && t in s.hands && s.hands[t].Held? && t.target in s.targets && s.targets[t.target].ad in s.ads
      && (passes ==> active && s.ads[s.targets[t.target].ad].status == AdSending)
    case Refuse(t, seen) =>
      && t in s.hands && s.hands[t].Barred? && t.target in s.targets && s.targets[t.target].ad in s.ads
      && MaySee(seen, s.hands[t].wasSending, s.ads[s.targets[t.target].ad].status)
      && (Reopens(Skip(s, t), s.targets[t.target].ad, seen) ==> Unheld(s, s.targets[t.target].ad, Some(t)))
    case Send(t, _) => t in s.hands && s.hands[t].Armed?
    case Commit(t, backoff, seen) =>
      && t in s.hands && s.hands[t].Sent? && t.target in s.targets && t.target in s.tally
      && s.targets[t.target].ad in s.ads
      && IsBackoff(s.targets[t.target].lease.attempts, backoff)
      && MaySee(seen, true, s.ads[s.targets[t.target].ad].status)
      && (Reopens(Written(settings, s, t, backoff, now), s.targets[t.target].ad, seen)
          ==> Unheld(s, s.targets[t.target].ad, Some(t)))
    case Crash(t) => t in s.hands
    case Reclaim(rows) => forall t :: t in rows ==> t in s.targets && Lapsed(s.targets[t].lease, now)
    case Withdraw(_, reason) => reason == ConnectionLost || reason == AccountSuspended
  }

  ghost function Apply(settings: Settings, now: Time, s: Board, a: Action): Board
    requires Enabled(settings, now, s, a)
  {
    match a
    case Compose(b, value) => SetAd(s, b, value)
    case EditAd(b, delayMs, repeat, scheduledFor) =>
      SetAd(s, b, s.ads[b].(delayMs := delayMs, repeat := repeat, scheduledFor := scheduledFor))
    case SetTargets(b, chats, newIds) =>
      var targets := Selected(s.targets, b, Distinct(chats), newIds, now);
      s.(targets := targets, tally := Opened(targets, s.tally))
    case DropChats(ads, chats) =>
      var targets := Dropped(s.targets, ads, chats);
      s.(targets := targets, tally := Opened(targets, s.tally))
    case SendAd(b, valid) => SentBy(s, b, valid, now)
    case PauseAd(b, reason) => SetAd(s, b, s.ads[b].(status := AdPaused, reason := reason))
    case ResumeAd(b) => Queued(s, b, now)
    case CancelAd(b) => SetAd(s, b, s.ads[b].(status := AdCancelled)).(targets := CancelledFor(s.targets, b))
    case RetryAd(b) => if AnyRequeueable(s.targets, b) then Retried(s, b, now) else s
    case StartScheduled(b, valid) => if valid then Queued(s, b, now) else SetAd(s, b, s.ads[b].(status := AdDraft))
    case FloodResume(b) => SetAd(s, b, s.ads[b].(status := AdSending, reason := NoReason))
    case Claim(w, batch, _, jobs) =>
      var rows := Accepted(s.ads, s.targets, jobs, batch, settings.broadcastInflight);
      s.(targets := ClaimedRows(s.targets, rows, w, now + settings.leaseTime), hands := TakenInHand(s.hands, rows, w))
    case Heartbeat(t) => Write(s, t.target, Heartbeaten(s.targets[t.target].lease, t.worker, now + settings.leaseTime))
    case Load(t, passes, _) =>
      s.(hands := s.hands[t := if passes then Armed else Barred(s.ads[s.targets[t.target].ad].status == AdSending)])
    case Refuse(t, seen) => Settled(Skip(s, t), s.targets[t.target].ad, seen, now)
    case Send(t, report) => s.(hands := s.hands[t := Sent(report)], tally := Posted(s.tally, t.target, report))
    case Commit(t, backoff, seen) => Committed(settings, s, t, backoff, seen, now)
    case Crash(t) =>
      LetGo(s, t).(tally := if s.hands[t] == Sent(Receipt) then Forgotten(s.tally, t.target) else s.tally)
    case Reclaim(rows) => s.(targets := ReleasedRows(s.targets, rows))
    case Withdraw(c, reason) => Withdrawn(s, c, reason)
  }

  ghost predicate HeartbeatsKept(s: Board, now: Time) {
    forall t :: t in s.hands && t.target in s.targets && s.targets[t.target].lease.expires.Some?
      ==> now <= s.targets[t.target].lease.expires.value
  }

  // ------------------------------------------------------------------------
  // Invariants
  // ------------------------------------------------------------------------

  ghost predicate RowSound(ads: AdTable, targets: TargetTable, t: RowId) {
    t in targets ==> Tidy(targets[t].lease) && targets[t].ad in ads
  }

  ghost predicate RowsSound(ads: AdTable, targets: TargetTable) {
    forall t :: RowSound(ads, targets, t)
  }

  ghost predicate OwnPlace(targets: TargetTable, t: RowId, u: RowId) {
    (t in targets && u in targets && targets[t].ad == targets[u].ad
     && (targets[t].chat == targets[u].chat || targets[t].position == targets[u].position)) ==>
      t == u
  }

  /** Within one ad, a group has one row and a position holds one row. */
  ghost predicate PlacesDistinct(targets: TargetTable) {
    forall t, u :: OwnPlace(targets, t, u)
  }

  /** A target in hand is leased to its holder and has not lapsed, or was cancelled under it. */
  ghost predicate HandSound(targets: TargetTable, hands: map<Task, Phase>, now: Time, t: Task) {
    t in hands && t.target in targets ==>
      var l := targets[t.target].lease;
      || l.status == Skipped
      || (l.status == Leased && l.owner == Some(t.worker) && l.expires.Some? && now <= l.expires.value)
  }

  ghost predicate HandsSound(targets: TargetTable, hands: map<Task, Phase>, now: Time) {
    forall t :: HandSound(targets, hands, now, t)
  }

  ghost predicate OneHolder(targets: TargetTable, hands: map<Task, Phase>, r: RowId, w: WorkerId, v: WorkerId) {
    r in targets && Task(w, r) in hands && Task(v, r) in hands ==> w == v
  }

  ghost predicate Exclusive(targets: TargetTable, hands: map<Task, Phase>) {
    forall r, w, v :: OneHolder(targets, hands, r, w, v)
  }

  ghost predicate PostedBy(hands: map<Task, Phase>, t: Task) {
    t in hands && hands[t] == Sent(Receipt)
  }

  ghost predicate InHandPosted(hands: map<Task, Phase>, r: RowId) {
    exists w :: PostedBy(hands, Task(w, r))
  }

  ghost function Evidence(targets: TargetTable, hands: map<Task, Phase>, r: RowId): nat
    requires r in targets
  {
    if targets[r].lease.status == Succeeded || InHandPosted(hands, r) then 1 else 0
  }

  /** The posts of the current round are those a crash forgot, plus one exactly when the target is
      `succeeded` or its worker is about to say so. */
  ghost predicate Balances(targets: TargetTable, hands: map<Task, Phase>, tally: map<RowId, Tally>, r: RowId) {
    && (r in tally <==> r in targets)
    && (r in targets ==> tally[r].posts == tally[r].lost + Evidence(targets, hands, r))
  }

  ghost predicate RoundsBalance(targets: TargetTable, hands: map<Task, Phase>, tally: map<RowId, Tally>) {
    forall r :: Balances(targets, hands, tally, r)
  }

  ghost predicate RetryBounded(settings: Settings, targets: TargetTable, tally: map<RowId, Tally>, r: RowId) {
    r in targets && r in tally ==>
      var cap := Max(1, settings.maxAttempts);
      if targets[r].lease.status == DeadLetter then tally[r].failures <= cap
      else tally[r].failures <= targets[r].lease.attempts && tally[r].failures < cap
  }

  ghost predicate RetriesBounded(settings: Settings, targets: TargetTable, tally: map<RowId, Tally>) {
    forall r :: RetryBounded(settings, targets, tally, r)
  }

  ghost predicate CeilingKept(settings: Settings, ads: AdTable, targets: TargetTable) {
    forall c :: InFlight(ads, targets, c) <= settings.broadcastInflight
  }

  ghost predicate NotedBefore(ads: AdTable, n: (RowId, nat)) {
    n.0 in ads && 1 <= n.1 <= ads[n.0].rounds
  }

  /** No notification key is used twice. */
  ghost predicate NotedOnce(ads: AdTable, notified: seq<(RowId, nat)>) {
    && (forall i :: 0 <= i < |notified| ==> NotedBefore(ads, notified[i]))
    && (forall i, k :: 0 <= i < k < |notified| ==> notified[i] != notified[k])
  }

  ghost predicate Inv(settings: Settings, s: Board, now: Time) {
    && RowsSound(s.ads, s.targets)
    && PlacesDistinct(s.targets)
    && HandsSound(s.targets, s.hands, now)
    && Exclusive(s.targets, s.hands)
    && RoundsBalance(s.targets, s.hands, s.tally)
    && RetriesBounded(settings, s.targets, s.tally)
    && CeilingKept(settings, s.ads, s.targets)
    && NotedOnce(s.ads, s.notified)
  }
}
