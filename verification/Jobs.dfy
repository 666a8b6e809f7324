/** Forwarding rows and the effect of each transaction on them (backend/app/repositories/jobs.py,
    backend/app/services/dispatch.py). */
module Jobs {
  import opened Types
  import opened Leases
  import opened Idempotency
  import Admission

  datatype RuleStatus = RuleDraft | RuleActive | RulePaused | RuleError | RuleDisconnected

  /** `keywords` says whether the rule carries any keyword filter, include or exclude. */
  datatype Rule = Rule(
    conn: ConnId,
    status: RuleStatus,
    version: nat,
    copy: bool,
    dests: seq<Peer>,
    keywords: bool,
    delayMs: nat,
    maxAttempts: nat)

  datatype Job = Job(
    key: string,
    token: int,
    rule: string,
    version: nat,
    conn: ConnId,
    source: Peer,
    ids: seq<int>,
    dest: Peer,
    lease: Lease)
  {
    function Route(): Route
      requires ids != []
    {
      RouteOf(rule, source, ids, dest)
    }
  }

  type JobTable = map<RowId, Job>
  type RuleTable = map<string, Rule>

  predicate HasKey(jobs: JobTable, key: string) {
    exists j :: j in jobs && jobs[j].key == key
  }

  /** INSERT ... ON CONFLICT (idempotency_key) DO NOTHING. */
  function CreateIfAbsent(jobs: JobTable, id: RowId, job: Job): JobTable {
    if HasKey(jobs, job.key) then jobs else jobs[id := job]
  }

  /** The job that intake builds for the `i`-th destination of a rule. */
  function NewJob(keys: Keys, r: string, rule: Rule, source: Peer, ids: seq<int>, i: nat, now: Time): Job
    requires ids != [] && i < |rule.dests|
  {
    var key := keys.key(RouteOf(r, source, ids, rule.dests[i]));
    Job(key, keys.token(key), r, rule.version, rule.conn, source, ids, rule.dests[i],
        Fresh(now + rule.delayMs * i * MILLISECOND))
  }

  /** Intake for one rule: one job per eligible destination, in order, the first `n` of them. */
  function Dispatched(keys: Keys, jobs: JobTable, r: string, rule: Rule, source: Peer, ids: seq<int>,
                            eligible: seq<bool>, newIds: seq<RowId>, now: Time, n: nat): JobTable
    requires ids != [] && n <= |rule.dests| == |eligible| == |newIds|
  {
    if n == 0 then jobs
    else
      var before := Dispatched(keys, jobs, r, rule, source, ids, eligible, newIds, now, n - 1);
      if eligible[n - 1] then
        CreateIfAbsent(before, newIds[n - 1], NewJob(keys, r, rule, source, ids, n - 1, now))
      else before
  }

  function Put(jobs: JobTable, j: RowId, l: Lease): JobTable
    requires j in jobs
  {
    jobs[j := jobs[j].(lease := l)]
  }

  /** Applies `f` to the lease of every job that `on` selects. */
  function Mapped(jobs: JobTable, on: Job -> bool, f: Lease -> Lease): (r: JobTable)
    ensures r.Keys == jobs.Keys
    ensures forall j :: j in jobs ==> r[j] == if on(jobs[j]) then jobs[j].(lease := f(jobs[j].lease)) else jobs[j]
  {
    map j | j in jobs :: if on(jobs[j]) then jobs[j].(lease := f(jobs[j].lease)) else jobs[j]
  }

  function CancelledForConnection(jobs: JobTable, c: ConnId): JobTable {
    Mapped(jobs, (j: Job) => j.conn == c, Cancelled)
  }

  function CancelledForRule(jobs: JobTable, r: string): JobTable {
    Mapped(jobs, (j: Job) => j.rule == r, Cancelled)
  }

  function RequeuedForRule(jobs: JobTable, r: string, now: Time): JobTable {
    Mapped(jobs, (j: Job) => j.rule == r, l => Requeued(l, now))
  }

  /** Returns the given rows to the queue. */
  function ReleasedRows(jobs: JobTable, rows: set<RowId>): (r: JobTable)
    ensures r.Keys == jobs.Keys
    ensures forall j :: j in jobs ==>
      r[j] == if j in rows then jobs[j].(lease := Released(jobs[j].lease)) else jobs[j]
  {
    map j | j in jobs :: if j in rows then jobs[j].(lease := Released(jobs[j].lease)) else jobs[j]
  }

  function ClaimedRows(jobs: JobTable, rows: set<RowId>, w: WorkerId, deadline: Time): (r: JobTable)
    ensures r.Keys == jobs.Keys
    ensures forall j :: j in jobs ==>
      r[j] == if j in rows then jobs[j].(lease := Claimed(jobs[j].lease, w, deadline)) else jobs[j]
  {
    map j | j in jobs :: if j in rows then jobs[j].(lease := Claimed(jobs[j].lease, w, deadline)) else jobs[j]
  }

  function LeasedOn(jobs: JobTable, c: ConnId): set<RowId> {
    set j | j in jobs && jobs[j].lease.status == Leased && jobs[j].conn == c
  }

  function InFlight(jobs: JobTable, c: ConnId): nat {
    |LeasedOn(jobs, c)|
  }

  function BusyOn(jobs: JobTable): ConnId -> nat {
    (c: ConnId) => InFlight(jobs, c)
  }

  /** What `claim_batch` may return: distinct due rows, no more than asked for. */
  ghost predicate IsBatch(jobs: JobTable, batch: seq<RowId>, now: Time, capacity: nat) {
    && |batch| <= capacity
    && (forall i :: 0 <= i < |batch| ==> batch[i] in jobs && Claimable(jobs[batch[i]].lease, now))
    && (forall i, k :: 0 <= i < k < |batch| ==> batch[i] != batch[k])
  }

  function ConnsOf(jobs: JobTable, batch: seq<RowId>): (r: seq<ConnId>)
    requires forall i :: 0 <= i < |batch| ==> batch[i] in jobs
    ensures |r| == |batch| && forall i :: 0 <= i < |r| ==> r[i] == jobs[batch[i]].conn
  {
    seq(|batch|, i requires 0 <= i < |batch| => jobs[batch[i]].conn)
  }

  /** The rows of the batch that the admission loop keeps. */
  ghost function Accepted(jobs: JobTable, batch: seq<RowId>, limit: nat): set<RowId>
    requires forall i :: 0 <= i < |batch| ==> batch[i] in jobs
  {
    set i | 0 <= i < |batch| && Admission.Admits(ConnsOf(jobs, batch), BusyOn(jobs), limit, i) :: batch[i]
  }

  function PausedOn(rules: RuleTable, c: ConnId): (r: RuleTable)
    ensures r.Keys == rules.Keys
    ensures forall k :: k in rules ==>
      r[k] == if rules[k].conn == c && rules[k].status == RuleActive then rules[k].(status := RulePaused) else rules[k]
  {
    map k | k in rules ::
      if rules[k].conn == c && rules[k].status == RuleActive then rules[k].(status := RulePaused) else rules[k]
  }
}
