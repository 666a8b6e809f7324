/** The forwarding half of the delivery engine as a transition system. Every action is one database
    transaction, except that processing a job is four: it loads the job and its connection, passes
    the guards, sends, and commits; a crash may fall between any two of them. */
module Forwarding {
  import opened Types
  import opened Leases
  import opened Delivery
  import opened Idempotency
  import opened Jobs
  import Admission

  datatype Config = Config(keys: Keys, settings: Settings, userAccounts: set<ConnId>)

  /** A job in the hands of a worker, and how far the worker has come with it. */
  datatype Task = Task(worker: WorkerId, job: RowId)

  datatype Phase =
    | Held
    | Loaded(connActive: bool)
    | Armed(tokened: bool)
    | Sent(report: Report)

  /** History of one job: sends that landed or may have, how many of those a crash forgot, how many
      ambiguous ones a customer requeued, and the retry failures since the last manual requeue. */
  datatype Ledger = Ledger(landed: nat, lost: nat, requeued: nat, failures: nat)

  /** One message Telegram accepted. */
  datatype Delivered = Delivered(route: Route, tokened: bool)

  datatype Forward = Forward(
    rules: RuleTable,
    jobs: JobTable,
    hands: map<Task, Phase>,
    ledger: map<RowId, Ledger>,
    seen: set<(ConnId, int)>,
    log: seq<Delivered>,
    copied: set<string>)

  datatype Action =
    | Dispatch(rule: string, source: Peer, ids: seq<int>, eligible: seq<bool>, newIds: seq<RowId>)
    | Claim(worker: WorkerId, batch: seq<RowId>, capacity: nat)
    | Heartbeat(task: Task)
    | Load(task: Task, connActive: bool)
    | Arm(task: Task)
    | Refuse(task: Task)
    | Send(task: Task, accepted: bool, report: Report)
    | Commit(task: Task, backoff: Time, threshold: bool)
    | Crash(task: Task)
    | Reclaim(rows: set<RowId>)
    | CreateRule(rule: string, value: Rule)
    | EditRule(rule: string, value: Rule)
    | PauseRule(rule: string)
    | Requeue(rule: string)
    | Withdraw(conn: ConnId)

  /** The customer's own actions; every other action happens by itself. */
  predicate ByCustomer(a: Action) {
    a.CreateRule? || a.EditRule? || a.PauseRule? || a.Requeue?
  }

  function Cap(cfg: Config, rule: Rule): nat {
    Max(1, Min(rule.maxAttempts, cfg.settings.maxAttempts))
  }

  /** A job queued under an older version is delivered only if its destination is still selected
      and no keyword filter exists, because the text to filter was never kept. */
  predicate StillWanted(job: Job, rule: Rule) {
    job.version == rule.version || (job.dest in rule.dests && !rule.keywords)
  }

  /** The tokens of one request: one per message of the album, counting up. */
  function Tokens(c: ConnId, token: int, n: nat): (r: set<(ConnId, int)>)
    ensures forall x :: x in r <==> x.0 == c && token <= x.1 < token + n
  {
    if n == 0 then {} else Tokens(c, token, n - 1) + {(c, token + n - 1)}
  }

  function TokenIds(job: Job): set<(ConnId, int)> {
    Tokens(job.conn, job.token, |job.ids|)
  }

  ghost function DecisionFor(cfg: Config, f: Forward, t: Task, backoff: Time): Decision
    requires t.job in f.jobs && f.jobs[t.job].rule in f.rules && t in f.hands && f.hands[t].Sent?
  {
    var job := f.jobs[t.job];
    Decide(f.hands[t].report, job.lease.attempts, Cap(cfg, f.rules[job.rule]), cfg.settings.floodPause, backoff)
  }

  ghost predicate Enabled(cfg: Config, now: Time, f: Forward, a: Action) {
    match a
    case Dispatch(r, source, ids, eligible, newIds) =>
      && r in f.rules && f.rules[r].status == RuleActive && ids != []
      && |eligible| == |newIds| == |f.rules[r].dests|
      && (forall i :: 0 <= i < |newIds| ==> newIds[i] !in f.jobs)
      && (forall i, k :: 0 <= i < k < |newIds| ==> newIds[i] != newIds[k])
    case Claim(w, batch, capacity) => IsBatch(f.jobs, batch, now, capacity)
    case Heartbeat(t) => t in f.hands && t.job in f.jobs
    case Load(t, _) => t in f.hands && f.hands[t].Held? && t.job in f.jobs
    case Arm(t) =>
      && t in f.hands && f.hands[t] == Loaded(true) && t.job in f.jobs
      && f.jobs[t.job].rule in f.rules
      && f.rules[f.jobs[t.job].rule].status == RuleActive
      && StillWanted(f.jobs[t.job], f.rules[f.jobs[t.job].rule])
    case Refuse(t) => t in f.hands && f.hands[t].Loaded? && t.job in f.jobs
    case Send(t, accepted, report) =>
      && t in f.hands && f.hands[t].Armed? && t.job in f.jobs && f.jobs[t.job].ids != []
      && (report.Receipt? ==> accepted)
      && (accepted && f.hands[t].tokened ==> TokenIds(f.jobs[t.job]) !! f.seen)
    case Commit(t, backoff, _) =>
      && t in f.hands && f.hands[t].Sent? && t.job in f.jobs && f.jobs[t.job].rule in f.rules
      && t.job in f.ledger
      && IsBackoff(f.jobs[t.job].lease.attempts, backoff)
    case Crash(t) => t in f.hands && t.job in f.ledger
    case Reclaim(rows) => forall j :: j in rows ==> j in f.jobs && Lapsed(f.jobs[j].lease, now)
    case CreateRule(r, _) => r !in f.rules
    case EditRule(r, value) =>
      r in f.rules && value.conn == f.rules[r].conn && value.maxAttempts == f.rules[r].maxAttempts
    case PauseRule(r) => r in f.rules
    case Requeue(r) => r in f.rules
    case Withdraw(_) => true
  }

  ghost function Apply(cfg: Config, now: Time, f: Forward, a: Action): Forward
    requires Enabled(cfg, now, f, a)
  {
    match a
    case Dispatch(r, source, ids, eligible, newIds) =>
      var jobs := Dispatched(cfg.keys, f.jobs, r, f.rules[r], source, ids, eligible, newIds, now, |newIds|);
      f.(jobs := jobs, ledger := Opened(jobs, f.ledger))
    case Claim(w, batch, _) =>
      Take(cfg, now, f, w, Accepted(f.jobs, batch, cfg.settings.perConnectionInflight))
    case Heartbeat(t) =>
      Write(f, t.job, Heartbeaten(f.jobs[t.job].lease, t.worker, now + cfg.settings.leaseTime))
    case Load(t, active) => f.(hands := f.hands[t := Loaded(active)])
    case Arm(t) => Armored(cfg, f, t)
    case Refuse(t) => LetGo(Write(f, t.job, Finished(f.jobs[t.job].lease, Skipped)), t)
    case Send(t, accepted, report) => Transmit(f, t, accepted, report)
    case Commit(t, backoff, threshold) =>
      var d := DecisionFor(cfg, f, t, backoff);
      var job := f.jobs[t.job];
      var rest := if d.pausesConnection then Withdrawn(f, job.conn) else f;
      Settle(rest, t, Applied(job.lease, d.verdict, now), d.pausesOwner || (d.strike && threshold))
    case Crash(t) => LetGo(if LandedBy(f.hands, t) then Forget(f, t.job) else f, t)
    case Reclaim(rows) => f.(jobs := ReleasedRows(f.jobs, rows))
    case CreateRule(r, value) => f.(rules := f.rules[r := value])
    case EditRule(r, value) => f.(rules := f.rules[r := value])
    case PauseRule(r) =>
      f.(rules := f.rules[r := f.rules[r].(status := RulePaused)], jobs := CancelledForRule(f.jobs, r))
    case Requeue(r) => Retried(f, r, now)
    case Withdraw(c) => Withdrawn(f, c)
  }

  /** A ledger for every row, blank for the new ones. */
  ghost function Opened(jobs: JobTable, ledger: map<RowId, Ledger>): map<RowId, Ledger> {
    map j | j in jobs :: if j in ledger then ledger[j] else Ledger(0, 0, 0, 0)
  }

  ghost function Write(f: Forward, j: RowId, l: Lease): Forward
    requires j in f.jobs
  {
    f.(jobs := Put(f.jobs, j, l))
  }

  ghost function LetGo(f: Forward, t: Task): Forward {
    f.(hands := f.hands - {t})
  }

  /** The admitted rows are leased to the worker and taken in hand; the others stay queued. */
  ghost function Take(cfg: Config, now: Time, f: Forward, w: WorkerId, rows: set<RowId>): Forward {
    f.(jobs := ClaimedRows(f.jobs, rows, w, now + cfg.settings.leaseTime),
       hands := TakenInHand(f.hands, rows, w))
  }

  ghost function TakenInHand(hands: map<Task, Phase>, rows: set<RowId>, w: WorkerId): map<Task, Phase> {
    hands + map j | j in rows :: Task(w, j) := Held
  }

  ghost function Counted(ledger: map<RowId, Ledger>, j: RowId, report: Report): map<RowId, Ledger> {
    if Landed(report) && j in ledger then ledger[j := ledger[j].(landed := ledger[j].landed + 1)] else ledger
  }

  /** The guards passed: a user account forwarding (not copying) sends under the job's token. */
  ghost function Armored(cfg: Config, f: Forward, t: Task): Forward
    requires t in f.hands && t.job in f.jobs && f.jobs[t.job].rule in f.rules
  {
    var job := f.jobs[t.job];
    var copy := f.rules[job.rule].copy;
    f.(hands := f.hands[t := Armed(job.conn in cfg.userAccounts && !copy)],
       copied := if copy then f.copied + {job.rule} else f.copied)
  }

  ghost function SeenAfter(seen: set<(ConnId, int)>, job: Job, remembered: bool): set<(ConnId, int)> {
    if remembered then seen + TokenIds(job) else seen
  }

  ghost function LogAfter(log: seq<Delivered>, job: Job, tokened: bool, accepted: bool): seq<Delivered>
    requires job.ids != []
  {
    if accepted then log + [Delivered(job.Route(), tokened)] else log
  }

  ghost function Transmit(f: Forward, t: Task, accepted: bool, report: Report): Forward
    requires t in f.hands && f.hands[t].Armed? && t.job in f.jobs && f.jobs[t.job].ids != []
  {
    var job := f.jobs[t.job];
    var tokened := f.hands[t].tokened;
    f.(hands := f.hands[t := Sent(report)],
       seen := SeenAfter(f.seen, job, accepted && tokened),
       log := LogAfter(f.log, job, tokened, accepted),
       ledger := Counted(f.ledger, t.job, report))
  }

  /** The commit of one job: its row, its rule if that must pause, and its ledger. */
  ghost function Settle(f: Forward, t: Task, l: Lease, pausesRule: bool): Forward
    requires t in f.hands && f.hands[t].Sent? && t.job in f.jobs && t.job in f.ledger
    requires f.jobs[t.job].rule in f.rules
  {
    var r := f.jobs[t.job].rule;
    f.(jobs := Put(f.jobs, t.job, l),
       hands := f.hands - {t},
       rules := if pausesRule then f.rules[r := f.rules[r].(status := RulePaused)] else f.rules,
       ledger := Charged(f.ledger, t.job, f.hands[t].report))
  }

  ghost function Charged(ledger: map<RowId, Ledger>, j: RowId, report: Report): map<RowId, Ledger>
    requires j in ledger
  {
    if IsRetryFailure(report) then ledger[j := ledger[j].(failures := ledger[j].failures + 1)] else ledger
  }

  ghost function Forget(f: Forward, j: RowId): Forward
    requires j in f.ledger
  {
    f.(ledger := f.ledger[j := f.ledger[j].(lost := f.ledger[j].lost + 1)])
  }

  ghost function Retried(f: Forward, r: string, now: Time): Forward {
    f.(jobs := RequeuedForRule(f.jobs, r, now),
       ledger := map j | j in f.ledger ::
         if j in f.jobs && f.jobs[j].rule == r && Requeueable(f.jobs[j].lease) then
           f.ledger[j].(failures := 0,
                        requeued := f.ledger[j].requeued + if f.jobs[j].lease.status == NeedsAttention then 1 else 0)
         else f.ledger[j])
  }

  /** Pausing a connection: its active rules pause, its unstarted jobs are cancelled. */
  ghost function Withdrawn(f: Forward, c: ConnId): Forward {
    f.(rules := PausedOn(f.rules, c), jobs := CancelledForConnection(f.jobs, c))
  }

  const EMPTY: Forward := Forward(map[], map[], map[], map[], {}, [], {})

  /** Every live worker heartbeats before its lease lapses: time may not pass the expiry of a lease
      whose holder is still at work. */
  ghost predicate HeartbeatsKept(f: Forward, now: Time) {
    forall t :: t in f.hands && t.job in f.jobs && f.jobs[t.job].lease.expires.Some?
      ==> now <= f.jobs[t.job].lease.expires.value
  }

  // ------------------------------------------------------------------------
  // Invariants
  // ------------------------------------------------------------------------

  /** A row is tidy, belongs to a known rule on its connection, and its key and token are the ones
      its route determines. */
  ghost predicate RowSound(cfg: Config, rules: RuleTable, jobs: JobTable, j: RowId) {
    j in jobs ==>
      var job := jobs[j];
      && Tidy(job.lease) && job.ids != []
      && job.rule in rules && rules[job.rule].conn == job.conn
      && job.key == cfg.keys.key(job.Route()) && job.token == cfg.keys.token(job.key)
  }

  ghost predicate RowsSound(cfg: Config, rules: RuleTable, jobs: JobTable) {
    forall j :: RowSound(cfg, rules, jobs, j)
  }

  ghost predicate SameKeySameRow(jobs: JobTable, i: RowId, j: RowId) {
    i in jobs && j in jobs && jobs[i].key == jobs[j].key ==> i == j
  }

  ghost predicate KeysUnique(jobs: JobTable) {
    forall i, j :: SameKeySameRow(jobs, i, j)
  }

  /** A job in hand is leased to the worker that holds it, and the lease has not lapsed, or it was
      cancelled under that worker. */
  ghost predicate HandSound(jobs: JobTable, hands: map<Task, Phase>, now: Time, t: Task) {
    t in hands ==>
      && t.job in jobs
      && var l := jobs[t.job].lease;
         || l.status == Skipped
         || (l.status == Leased && l.owner == Some(t.worker) && l.expires.Some? && now <= l.expires.value)
  }

  ghost predicate HandsSound(jobs: JobTable, hands: map<Task, Phase>, now: Time) {
    forall t :: HandSound(jobs, hands, now, t)
  }

  ghost predicate OneHolder(hands: map<Task, Phase>, j: RowId, w: WorkerId, v: WorkerId) {
    Task(w, j) in hands && Task(v, j) in hands ==> w == v
  }

  /** No job is in the hands of two workers. */
  ghost predicate Exclusive(hands: map<Task, Phase>) {
    forall j, w, v :: OneHolder(hands, j, w, v)
  }

  ghost predicate LandedBy(hands: map<Task, Phase>, t: Task) {
    t in hands && hands[t].Sent? && Landed(hands[t].report)
  }

  ghost predicate InHandLanded(hands: map<Task, Phase>, j: RowId) {
    exists w :: LandedBy(hands, Task(w, j))
  }

  /** What still witnesses a landed send: the status of the row, or a worker about to commit. */
  ghost function Evidence(jobs: JobTable, hands: map<Task, Phase>, j: RowId): nat
    requires j in jobs
  {
    var status := jobs[j].lease.status;
    if status == Succeeded || status == NeedsAttention || InHandLanded(hands, j) then 1 else 0
  }

  /** Every landed send is accounted for: forgotten by a crash, requeued as ambiguous by a
      customer, or still witnessed. */
  ghost predicate Balances(jobs: JobTable, hands: map<Task, Phase>, ledger: map<RowId, Ledger>, j: RowId) {
    && (j in ledger <==> j in jobs)
    && (j in jobs ==> ledger[j].landed == ledger[j].lost + ledger[j].requeued + Evidence(jobs, hands, j))
  }

  ghost predicate LedgerBalances(jobs: JobTable, hands: map<Task, Phase>, ledger: map<RowId, Ledger>) {
    forall j :: Balances(jobs, hands, ledger, j)
  }

  /** Retry failures since the last manual requeue never exceed the cap, nor the attempts on the row. */
  ghost predicate RetryBounded(cfg: Config, rules: RuleTable, jobs: JobTable, ledger: map<RowId, Ledger>, j: RowId) {
    j in jobs && j in ledger && jobs[j].rule in rules ==>
      var cap := Cap(cfg, rules[jobs[j].rule]);
      if jobs[j].lease.status == DeadLetter then ledger[j].failures <= cap
      else ledger[j].failures <= jobs[j].lease.attempts && ledger[j].failures < cap
  }

  ghost predicate RetriesBounded(cfg: Config, rules: RuleTable, jobs: JobTable, ledger: map<RowId, Ledger>) {
    forall j :: RetryBounded(cfg, rules, jobs, ledger, j)
  }

  ghost predicate CeilingKept(cfg: Config, jobs: JobTable) {
    forall c :: InFlight(jobs, c) <= cfg.settings.perConnectionInflight
  }

  /** Telegram remembers the token of every message it accepted under one. */
  ghost predicate Remembered(cfg: Config, rules: RuleTable, seen: set<(ConnId, int)>, d: Delivered) {
    && d.route.rule in rules
    && (d.tokened ==> (rules[d.route.rule].conn, cfg.keys.token(cfg.keys.key(d.route))) in seen)
  }

  /** No route was accepted twice under a token. */
  ghost predicate LogSound(cfg: Config, rules: RuleTable, seen: set<(ConnId, int)>, log: seq<Delivered>) {
    && (forall i :: 0 <= i < |log| ==> Remembered(cfg, rules, seen, log[i]))
    && (forall i, k :: 0 <= i < k < |log| && log[i].tokened && log[k].tokened ==> log[i].route != log[k].route)
  }

  /** An untokened send on a user account comes from a rule that was once in copy mode. */
  ghost predicate ArmedKnown(cfg: Config, jobs: JobTable, hands: map<Task, Phase>, copied: set<string>, t: Task) {
    t in hands && t.job in jobs && hands[t] == Armed(false) ==>
      jobs[t.job].conn in cfg.userAccounts ==> jobs[t.job].rule in copied
  }

  ghost predicate CopyKnown(cfg: Config, rules: RuleTable, copied: set<string>, d: Delivered) {
    d.route.rule in rules && !d.tokened && rules[d.route.rule].conn in cfg.userAccounts ==> d.route.rule in copied
  }

  ghost predicate CopiesKnown(cfg: Config, rules: RuleTable, jobs: JobTable, hands: map<Task, Phase>,
                              log: seq<Delivered>, copied: set<string>) {
    && (forall t :: ArmedKnown(cfg, jobs, hands, copied, t))
    && (forall i :: 0 <= i < |log| ==> CopyKnown(cfg, rules, copied, log[i]))
  }

  ghost predicate Inv(cfg: Config, f: Forward, now: Time) {
    && RowsSound(cfg, f.rules, f.jobs)
    && KeysUnique(f.jobs)
    && HandsSound(f.jobs, f.hands, now)
    && Exclusive(f.hands)
    && LedgerBalances(f.jobs, f.hands, f.ledger)
    && RetriesBounded(cfg, f.rules, f.jobs, f.ledger)
    && CeilingKept(cfg, f.jobs)
    && LogSound(cfg, f.rules, f.seen, f.log)
    && CopiesKnown(cfg, f.rules, f.jobs, f.hands, f.log, f.copied)
  }
}
