/** What each forwarding step writes, column by column. */
module JobEffects {
  // The rows of backend/app/repositories/jobs.py, the rules of backend/app/services/safety.py.

  import opened Types
  import opened Leases
  import opened Delivery
  import opened Idempotency
  import opened Jobs
  import opened Forwarding
  import opened Outcomes
  import Admission
  import FS = ForwardingSafety

  /** Only the lease columns of the row differ. */
  predicate OnlyLease(before: Job, after: Job) {
    after == before.(lease := after.lease)
  }

  predicate Unfinished(l: Lease) {
    l.status == Pending || l.status == Leased
  }

  /** Skipped if it had not come to an end, and untouched if it had. */
  predicate CancelledRow(before: Job, after: Job) {
    after == if Unfinished(before.lease) then
               before.(lease := Lease(Skipped, before.lease.attempts, before.lease.notBefore, None, None))
             else before
  }

  predicate SameRows(jobs: JobTable, jobs': JobTable, except: set<RowId>) {
    jobs'.Keys == jobs.Keys && forall j :: j in jobs && j !in except ==> jobs'[j] == jobs[j]
  }

  // ------------------------------------------------------------------------
  // Intake
  // ------------------------------------------------------------------------

  /** What intake queues for one destination: no attempts, no lease, due `delayMs` milliseconds after
      the destination before it. */
  predicate QueuedFor(job: Job, keys: Keys, r: string, rule: Rule, source: Peer, ids: seq<int>, i: nat, now: Time)
    requires i < |rule.dests| && ids != []
  {
    && job.lease == Lease(Pending, 0, now + rule.delayMs * i * 1_000, None, None)
    && job.rule == r && job.version == rule.version && job.conn == rule.conn
    && job.source == source && job.ids == ids && job.dest == rule.dests[i]
    && job.key == keys.key(RouteOf(r, source, ids, rule.dests[i])) && job.token == keys.token(job.key)
  }

  predicate NewKeyAt(keys: Keys, jobs: JobTable, r: string, rule: Rule, source: Peer, ids: seq<int>, eligible: seq<bool>, i: nat)
    requires i < |rule.dests| == |eligible| && ids != []
  {
    && (forall j :: j in jobs ==> jobs[j].key != keys.key(RouteOf(r, source, ids, rule.dests[i])))
    && (forall k :: 0 <= k < i && eligible[k] ==>
          keys.key(RouteOf(r, source, ids, rule.dests[k])) != keys.key(RouteOf(r, source, ids, rule.dests[i])))
  }

  /** A key that is new stays new until its own destination comes. */
  lemma {:induction false} StillNew(keys: Keys, jobs: JobTable, r: string, rule: Rule, source: Peer, ids: seq<int>,
                                    eligible: seq<bool>, newIds: seq<RowId>, now: Time, i: nat, n: nat)
    requires ids != [] && n <= i < |rule.dests| == |eligible| == |newIds|
    requires NewKeyAt(keys, jobs, r, rule, source, ids, eligible, i)
    ensures !HasKey(Dispatched(keys, jobs, r, rule, source, ids, eligible, newIds, now, n),
                    keys.key(RouteOf(r, source, ids, rule.dests[i])))
  {
    if n > 0 {
      StillNew(keys, jobs, r, rule, source, ids, eligible, newIds, now, i, n - 1);
    }
  }

  lemma {:induction false} RowStays(keys: Keys, jobs: JobTable, r: string, rule: Rule, source: Peer, ids: seq<int>,
                                    eligible: seq<bool>, newIds: seq<RowId>, now: Time, m: nat, n: nat, j: RowId)
    requires ids != [] && m <= n <= |rule.dests| == |eligible| == |newIds|
    requires forall k :: m <= k < n ==> newIds[k] != j
    ensures var before := Dispatched(keys, jobs, r, rule, source, ids, eligible, newIds, now, m);
      var after := Dispatched(keys, jobs, r, rule, source, ids, eligible, newIds, now, n);
      (j in after <==> j in before) && (j in before ==> after[j] == before[j])
  {
    if m < n {
      RowStays(keys, jobs, r, rule, source, ids, eligible, newIds, now, m, n - 1, j);
    }
  }

  /** Each eligible destination whose delivery is new gets its row, and an ineligible or suppressed one
      gets none. */
  lemma IntakeQueues(keys: Keys, jobs: JobTable, r: string, rule: Rule, source: Peer, ids: seq<int>,
                     eligible: seq<bool>, newIds: seq<RowId>, now: Time, n: nat, i: nat)
    requires ids != [] && i < n <= |rule.dests| == |eligible| == |newIds|
    requires forall i, k :: 0 <= i < k < |newIds| ==> newIds[i] != newIds[k]
    requires newIds[i] !in jobs
    ensures var after := Dispatched(keys, jobs, r, rule, source, ids, eligible, newIds, now, n);
      && (newIds[i] in after ==> eligible[i])
      && (newIds[i] in after ==> QueuedFor(after[newIds[i]], keys, r, rule, source, ids, i, now))
      && (eligible[i] && NewKeyAt(keys, jobs, r, rule, source, ids, eligible, i) ==> newIds[i] in after)
  {
    RowStays(keys, jobs, r, rule, source, ids, eligible, newIds, now, 0, i, newIds[i]);
    RowStays(keys, jobs, r, rule, source, ids, eligible, newIds, now, i + 1, n, newIds[i]);
    if NewKeyAt(keys, jobs, r, rule, source, ids, eligible, i) {
      StillNew(keys, jobs, r, rule, source, ids, eligible, newIds, now, i, i);
    }
  }

  /** Intake as a step of the machine: the rows it adds, and no other change to the table. */
  lemma DispatchWrites(cfg: Config, now: Time, f: Forward, a: Action, i: nat)
    requires Inv(cfg, f, now) && Enabled(cfg, now, f, a) && a.Dispatch? && i < |a.newIds|
    ensures var rule := f.rules[a.rule];
      var jobs' := Apply(cfg, now, f, a).jobs;
      && (RowFor(a, i) in jobs' ==> a.eligible[i] && QueuedFor(jobs'[RowFor(a, i)], cfg.keys, a.rule, rule, a.source, a.ids, i, now))
      && (a.eligible[i] && NewKeyAt(cfg.keys, f.jobs, a.rule, rule, a.source, a.ids, a.eligible, i) ==> RowFor(a, i) in jobs')
      && (forall j :: j in f.jobs ==> j in jobs' && jobs'[j] == f.jobs[j])
      && (forall j :: j in jobs' ==> j in f.jobs || j in a.newIds)
  {
    var rule := f.rules[a.rule];
    FS.DispatchedAdds(cfg.keys, f.jobs, a.rule, rule, a.source, a.ids, a.eligible, a.newIds, now, |a.newIds|);
    IntakeQueues(cfg.keys, f.jobs, a.rule, rule, a.source, a.ids, a.eligible, a.newIds, now, |a.newIds|, i);
  }

  function RowFor(a: Action, i: nat): RowId
    requires a.Dispatch? && i < |a.newIds|
  {
    a.newIds[i]
  }

  // ------------------------------------------------------------------------
  // Leases
  // ------------------------------------------------------------------------

  /** What a claimed row becomes: leased to the worker until the deadline, otherwise as it was. */
  predicate ClaimedRow(before: Job, after: Job, w: WorkerId, deadline: Time) {
    after == before.(lease := Lease(Leased, before.lease.attempts, before.lease.notBefore, Some(w), Some(deadline)))
  }

  predicate AdmittedAt(cfg: Config, f: Forward, batch: seq<RowId>, i: nat)
    requires i < |batch| && forall k :: 0 <= k < |batch| ==> batch[k] in f.jobs
  {
    Admission.Admits(ConnsOf(f.jobs, batch), BusyOn(f.jobs), cfg.settings.perConnectionInflight, i)
  }

  lemma AcceptedExactly(cfg: Config, f: Forward, batch: seq<RowId>, i: nat)
    requires i < |batch| && (forall k :: 0 <= k < |batch| ==> batch[k] in f.jobs)
    requires forall k, m :: 0 <= k < m < |batch| ==> batch[k] != batch[m]
    ensures batch[i] in Accepted(f.jobs, batch, cfg.settings.perConnectionInflight) <==> AdmittedAt(cfg, f, batch, i)
  {
  }

  lemma BatchIsDue(cfg: Config, now: Time, f: Forward, w: WorkerId, batch: seq<RowId>, capacity: nat, i: nat)
    requires Enabled(cfg, now, f, Claim(w, batch, capacity)) && i < |batch|
    ensures batch[i] in f.jobs && f.jobs[batch[i]].lease.status == Pending && f.jobs[batch[i]].lease.notBefore <= now
    ensures forall k :: 0 <= k < |batch| ==> batch[k] in f.jobs
    ensures forall k, m :: 0 <= k < m < |batch| ==> batch[k] != batch[m]
  {
  }

  /** The claim as a change of the table and of the hands. */
  lemma ClaimTables(cfg: Config, now: Time, f: Forward, w: WorkerId, batch: seq<RowId>, capacity: nat, rows: set<RowId>)
    requires Enabled(cfg, now, f, Claim(w, batch, capacity))
    requires rows == Accepted(f.jobs, batch, cfg.settings.perConnectionInflight)
    ensures Apply(cfg, now, f, Claim(w, batch, capacity)) == Take(cfg, now, f, w, rows)
  {
  }

  lemma TakenRow(cfg: Config, now: Time, f: Forward, w: WorkerId, rows: set<RowId>, j: RowId)
    requires j in f.jobs
    ensures var f' := Take(cfg, now, f, w, rows);
      && j in f'.jobs
      && if j in rows then ClaimedRow(f.jobs[j], f'.jobs[j], w, now + cfg.settings.leaseTime) && Task(w, j) in f'.hands
         else f'.jobs[j] == f.jobs[j]
  {
  }

  /** A claim leases rows of the batch, due ones, up to the room of each connection, and takes exactly
      those in hand; every other row stays as it was. */
  lemma ClaimWrites(cfg: Config, now: Time, f: Forward, w: WorkerId, batch: seq<RowId>, capacity: nat, i: nat)
    requires Enabled(cfg, now, f, Claim(w, batch, capacity)) && i < |batch|
    ensures batch[i] in f.jobs && f.jobs[batch[i]].lease.status == Pending && f.jobs[batch[i]].lease.notBefore <= now
    ensures forall k :: 0 <= k < |batch| ==> batch[k] in f.jobs
    ensures var f' := Apply(cfg, now, f, Claim(w, batch, capacity));
      && batch[i] in f'.jobs
      && (if AdmittedAt(cfg, f, batch, i)
          then ClaimedRow(f.jobs[batch[i]], f'.jobs[batch[i]], w, now + cfg.settings.leaseTime) && Task(w, batch[i]) in f'.hands
          else f'.jobs[batch[i]] == f.jobs[batch[i]])
  {
    BatchIsDue(cfg, now, f, w, batch, capacity, i);
    var rows := Accepted(f.jobs, batch, cfg.settings.perConnectionInflight);
    ClaimTables(cfg, now, f, w, batch, capacity, rows);
    AcceptedExactly(cfg, f, batch, i);
    TakenRow(cfg, now, f, w, rows, batch[i]);
  }

  lemma ClaimElsewhere(cfg: Config, now: Time, f: Forward, w: WorkerId, batch: seq<RowId>, capacity: nat)
    requires Enabled(cfg, now, f, Claim(w, batch, capacity))
    ensures SameRows(f.jobs, Apply(cfg, now, f, Claim(w, batch, capacity)).jobs, set j | j in batch)
  {
  }

  /** A heartbeat extends the lease of the holder's row, and nothing else. */
  predicate Extended(before: Job, after: Job, w: WorkerId, deadline: Time) {
    after == if before.lease.owner == Some(w) then before.(lease := before.lease.(expires := Some(deadline))) else before
  }

  /** For a whole lease time after its heartbeat the holder's row cannot be reclaimed, and the holder
      keeps nobody else waiting. */
  lemma HeartbeatExtends(cfg: Config, now: Time, f: Forward, t: Task, later: Time)
    requires Enabled(cfg, now, f, Heartbeat(t))
    requires f.jobs[t.job].lease.status == Leased && f.jobs[t.job].lease.owner == Some(t.worker)
    requires now <= later <= now + cfg.settings.leaseTime
    ensures var f' := Apply(cfg, now, f, Heartbeat(t));
      && f'.jobs[t.job].lease.expires == Some(now + cfg.settings.leaseTime)
      && Extended(f.jobs[t.job], f'.jobs[t.job], t.worker, now + cfg.settings.leaseTime)
      && SameRows(f.jobs, f'.jobs, {t.job}) && f'.hands == f.hands
      && (forall rows :: t.job in rows ==> !Enabled(cfg, later, f', Reclaim(rows)))
      && ((forall u :: u in f.hands && u.job != t.job && u.job in f.jobs && f.jobs[u.job].lease.expires.Some?
             ==> later <= f.jobs[u.job].lease.expires.value) ==> HeartbeatsKept(f', later))
  {
  }

  /** A heartbeat for a row that its sender no longer owns changes nothing. */
  lemma StrangerExtendsNothing(cfg: Config, now: Time, f: Forward, t: Task)
    requires Enabled(cfg, now, f, Heartbeat(t)) && f.jobs[t.job].lease.owner != Some(t.worker)
    ensures Apply(cfg, now, f, Heartbeat(t)) == f
  {
  }

  /** Reclaiming concerns rows whose lease has run out, and queues them as they were. */
  lemma ReclaimWrites(cfg: Config, now: Time, f: Forward, rows: set<RowId>, j: RowId)
    requires Enabled(cfg, now, f, Reclaim(rows)) && j in rows
    ensures var f' := Apply(cfg, now, f, Reclaim(rows));
      && j in f.jobs && f.jobs[j].lease.status == Leased && f.jobs[j].lease.expires.Some? && f.jobs[j].lease.expires.value < now
      && f'.jobs[j] == f.jobs[j].(lease := Lease(Pending, f.jobs[j].lease.attempts, f.jobs[j].lease.notBefore, None, None))
      && SameRows(f.jobs, f'.jobs, rows)
  {
  }

  /** A lease that has run out can be reclaimed at once. */
  lemma LapsedIsReclaimable(cfg: Config, now: Time, f: Forward, j: RowId)
    requires j in f.jobs && f.jobs[j].lease.status == Leased
    requires f.jobs[j].lease.expires.Some? && f.jobs[j].lease.expires.value < now
    ensures Enabled(cfg, now, f, Reclaim({j}))
  {
  }

  // ------------------------------------------------------------------------
  // Guards
  // ------------------------------------------------------------------------

  /** What holds whenever a job passes the guards: its connection was active when it was loaded, its
      rule is active, and either its version is current or its destination is still listed and the
      rule has no keyword filter. It sends under its token on a user account that does not copy. */
  lemma GuardsHold(cfg: Config, now: Time, f: Forward, t: Task)
    requires Enabled(cfg, now, f, Arm(t))
    ensures f.hands[t] == Loaded(true)
    ensures var job := f.jobs[t.job];
      var rule := f.rules[job.rule];
      && rule.status == RuleActive
      && (job.version != rule.version ==> job.dest in rule.dests && !rule.keywords)
      && Apply(cfg, now, f, Arm(t)).hands == f.hands[t := Armed(job.conn in cfg.userAccounts && !rule.copy)]
  {
  }

  lemma RefuseWrites(cfg: Config, now: Time, f: Forward, t: Task)
    requires Enabled(cfg, now, f, Refuse(t))
    ensures var f' := Apply(cfg, now, f, Refuse(t));
      && OnlyLease(f.jobs[t.job], f'.jobs[t.job]) && Ends(f.jobs[t.job].lease, f'.jobs[t.job].lease, Skipped)
      && SameRows(f.jobs, f'.jobs, {t.job}) && t !in f'.hands
  {
  }

  // ------------------------------------------------------------------------
  // The outcome of a send
  // ------------------------------------------------------------------------

  /** How many failures a job may have: the lesser of the rule's limit and the deployment's. */
  function AttemptLimit(rule: Rule, settings: Settings): nat {
    if rule.maxAttempts <= settings.maxAttempts then rule.maxAttempts else settings.maxAttempts
  }

  /** What one commit writes to the row of the job. */
  lemma CommitWrites(cfg: Config, now: Time, f: Forward, t: Task, backoff: Time, tooMany: bool)
    requires Enabled(cfg, now, f, Commit(t, backoff, tooMany))
    ensures var f' := Apply(cfg, now, f, Commit(t, backoff, tooMany));
      var job := f.jobs[t.job];
      && t.job in f'.jobs && OnlyLease(job, f'.jobs[t.job]) && t !in f'.hands
      && Outcome(job.lease, f'.jobs[t.job].lease, f.hands[t].report, AttemptLimit(f.rules[job.rule], cfg.settings), now)
  {
    var job := f.jobs[t.job];
    DecisionIsOutcome(job.lease, f.hands[t].report, AttemptLimit(f.rules[job.rule], cfg.settings), cfg.settings.floodPause, backoff, now);
  }

  /** What it writes elsewhere: an unauthorized report cancels what is unfinished on the connection,
      any other touches no other row. */
  lemma CommitElsewhere(cfg: Config, now: Time, f: Forward, t: Task, backoff: Time, tooMany: bool, j: RowId)
    requires Enabled(cfg, now, f, Commit(t, backoff, tooMany)) && j in f.jobs && j != t.job
    ensures var jobs' := Apply(cfg, now, f, Commit(t, backoff, tooMany)).jobs;
      var r := f.hands[t].report;
      && jobs'.Keys == f.jobs.Keys
      && (if r.Refused? && r.cls == Auth && f.jobs[j].conn == f.jobs[t.job].conn then CancelledRow(f.jobs[j], jobs'[j])
          else jobs'[j] == f.jobs[j])
  {
  }

  /** The report pauses the rule: a wait of at least the threshold, or too many final failures. */
  predicate PausesRule(cfg: Config, f: Forward, t: Task, tooMany: bool)
    requires t in f.hands && f.hands[t].Sent? && t.job in f.jobs && f.jobs[t.job].rule in f.rules
  {
    var r := f.hands[t].report;
    r.Refused?
    && ((r.cls == RateLimit && (if r.wait.Some? then r.wait.value else 60_000_000) >= cfg.settings.floodPause)
        || (RetryFailure(r) && tooMany && f.jobs[t.job].lease.attempts + 1 >= AttemptLimit(f.rules[f.jobs[t.job].rule], cfg.settings)))
  }

  /** What a decision pauses. */
  lemma DecisionPauses(r: Report, attempts: nat, limit: nat, floodPause: Time, backoff: Time, tooMany: bool)
    ensures var d := Decide(r, attempts, Max(1, limit), floodPause, backoff);
      && (d.pausesConnection <==> r.Refused? && r.cls == Auth)
      && (d.pausesOwner || (d.strike && tooMany) <==>
            r.Refused?
            && ((r.cls == RateLimit && (if r.wait.Some? then r.wait.value else 60_000_000) >= floodPause)
                || (RetryFailure(r) && tooMany && attempts + 1 >= limit)))
  {
  }

  /** Which rules a commit pauses: all active ones of the connection when the account is gone, the
      job's own in the two cases above, and otherwise none. */
  lemma CommitPauses(cfg: Config, now: Time, f: Forward, t: Task, backoff: Time, tooMany: bool, r: string)
    requires Enabled(cfg, now, f, Commit(t, backoff, tooMany)) && r in f.rules
    ensures var rules' := Apply(cfg, now, f, Commit(t, backoff, tooMany)).rules;
      var gone := f.hands[t].report.Refused? && f.hands[t].report.cls == Auth;
      && rules'.Keys == f.rules.Keys
      && rules'[r] == if (gone && f.rules[r].conn == f.jobs[t.job].conn && f.rules[r].status == RuleActive)
                         || (r == f.jobs[t.job].rule && PausesRule(cfg, f, t, tooMany))
                      then f.rules[r].(status := RulePaused) else f.rules[r]
  {
    var job := f.jobs[t.job];
    DecisionPauses(f.hands[t].report, job.lease.attempts, AttemptLimit(f.rules[job.rule], cfg.settings),
                   cfg.settings.floodPause, backoff, tooMany);
    WithdrawWrites(f, job.conn, t.job, r);
  }

  // ------------------------------------------------------------------------
  // The customer, and the pause of a connection
  // ------------------------------------------------------------------------

  /** A manual retry queues exactly the failed, ambiguous and dead jobs of the rule, due at once. */
  lemma RequeueWrites(cfg: Config, now: Time, f: Forward, r: string, j: RowId)
    requires Enabled(cfg, now, f, Requeue(r)) && j in f.jobs
    ensures var jobs' := Apply(cfg, now, f, Requeue(r)).jobs;
      var l := f.jobs[j].lease;
      && jobs'.Keys == f.jobs.Keys
      && jobs'[j] == if f.jobs[j].rule == r && (l.status == Failed || l.status == NeedsAttention || l.status == DeadLetter)
                     then f.jobs[j].(lease := Lease(Pending, 0, now, None, l.expires)) else f.jobs[j]
  {
  }

  lemma PauseRuleWrites(cfg: Config, now: Time, f: Forward, r: string, j: RowId)
    requires Enabled(cfg, now, f, PauseRule(r)) && j in f.jobs
    ensures var f' := Apply(cfg, now, f, PauseRule(r));
      && f'.jobs.Keys == f.jobs.Keys && f'.rules == f.rules[r := f.rules[r].(status := RulePaused)]
      && (if f.jobs[j].rule == r then CancelledRow(f.jobs[j], f'.jobs[j]) else f'.jobs[j] == f.jobs[j])
  {
  }

  lemma WithdrawWrites(f: Forward, c: ConnId, j: RowId, r: string)
    ensures var f' := Withdrawn(f, c);
      && f'.jobs.Keys == f.jobs.Keys && f'.rules.Keys == f.rules.Keys
      && (j in f.jobs ==> if f.jobs[j].conn == c then CancelledRow(f.jobs[j], f'.jobs[j]) else f'.jobs[j] == f.jobs[j])
      && (r in f.rules ==>
            f'.rules[r] == if f.rules[r].conn == c && f.rules[r].status == RuleActive then f.rules[r].(status := RulePaused)
                           else f.rules[r])
  {
  }

  // ------------------------------------------------------------------------
  // Loading and sending
  // ------------------------------------------------------------------------

  lemma LoadWrites(cfg: Config, now: Time, f: Forward, t: Task, active: bool)
    requires Enabled(cfg, now, f, Load(t, active))
    ensures f.hands[t] == Held && Apply(cfg, now, f, Load(t, active)) == f.(hands := f.hands[t := Loaded(active)])
  {
  }

  /** A send Telegram accepts is one message of the job's route in its log; under a token, every token of
      the request is remembered from then on, and none of them had been seen before. */
  lemma SendWrites(cfg: Config, now: Time, f: Forward, t: Task, accepted: bool, report: Report)
    requires Enabled(cfg, now, f, Send(t, accepted, report))
    ensures f.hands[t].Armed? && t.job in f.jobs && f.jobs[t.job].ids != []
    ensures var f' := Apply(cfg, now, f, Send(t, accepted, report));
      var job, tokened := f.jobs[t.job], f.hands[t].tokened;
      && f'.jobs == f.jobs && f'.rules == f.rules && f'.hands == f.hands[t := Sent(report)]
      && f'.log == (if accepted then f.log + [Delivered(job.Route(), tokened)] else f.log)
      && (forall x :: x in f'.seen <==>
            x in f.seen || (accepted && tokened && x.0 == job.conn && job.token <= x.1 < job.token + |job.ids|))
      && (accepted && tokened ==> forall x :: x in f.seen ==> !(x.0 == job.conn && job.token <= x.1 < job.token + |job.ids|))
  {
  }
}
