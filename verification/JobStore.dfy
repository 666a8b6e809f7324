/** The forwarding tables, updated in place. */
module JobStore {
  // The transactions of backend/app/repositories/jobs.py, backend/app/services/dispatch.py and
  // backend/app/worker.py.

  import opened Types
  import opened Leases
  import opened Delivery
  import opened Idempotency
  import opened Jobs
  import opened Admission
  import Weighing
  import Sweeping
  import F = Forwarding
  import JE = JobEffects
  import Outcomes

  /** Why a job of an older rule version is skipped, if it is. */
  datatype Stale = NotStale | DestinationRemoved | FilteredAfterEdit | FilterRefuses

  datatype Refusal = Deliver | RuleInactive | NotConnected | ChatGone | Outdated(why: Stale) | NotEligible

  class Store {
    var rules: RuleTable
    var jobs: JobTable

    constructor ()
      ensures rules == map[] && jobs == map[]
    {
      rules, jobs := map[], map[];
    }

    // ----------------------------------------------------------------------
    // Intake
    // ----------------------------------------------------------------------

    /** INSERT ... ON CONFLICT DO NOTHING: reports whether a row was created. */
    method CreateIfAbsent(id: RowId, job: Job) returns (created: bool)
      requires id !in jobs
      modifies `jobs
      ensures jobs == Jobs.CreateIfAbsent(old(jobs), id, job)
      ensures created <==> id in jobs
    {
      created := !HasKey(jobs, job.key);
      if created {
        jobs := jobs[id := job];
      }
    }

    /** One job per eligible destination, the later ones delayed; replays are counted as duplicates. */
    method DispatchForRule(h: Hashes, r: string, source: Peer, ids: seq<int>, eligible: seq<bool>, newIds: seq<RowId>, now: Time)
      returns (created: nat, duplicates: nat, ineligible: nat)
      requires r in rules && ids != [] && |eligible| == |newIds| == |rules[r].dests|
      requires forall i :: 0 <= i < |newIds| ==> newIds[i] !in jobs
      requires forall i, k :: 0 <= i < k < |newIds| ==> newIds[i] != newIds[k]
      modifies `jobs
      ensures jobs == Dispatched(KeysOf(h), old(jobs), r, rules[r], source, ids, eligible, newIds, now, |newIds|)
      ensures created + duplicates + ineligible == |rules[r].dests|
      ensures |jobs| == |old(jobs)| + created
      ensures forall j :: j in old(jobs) ==> j in jobs && jobs[j] == old(jobs)[j]
      ensures forall i: nat :: i < |newIds| && newIds[i] in jobs ==>
        eligible[i] && JE.QueuedFor(jobs[newIds[i]], KeysOf(h), r, rules[r], source, ids, i, now)
      ensures forall i: nat :: i < |newIds| ==>
        eligible[i] && JE.NewKeyAt(KeysOf(h), old(jobs), r, rules[r], source, ids, eligible, i) ==> newIds[i] in jobs
    {
      created, duplicates, ineligible := 0, 0, 0;
      var rule := rules[r];
      ghost var before := jobs;
      for i := 0 to |rule.dests|
        invariant rules == old(rules)
        invariant jobs == Dispatched(KeysOf(h), before, r, rule, source, ids, eligible, newIds, now, i)
        invariant forall k :: i <= k < |newIds| ==> newIds[k] !in jobs
        invariant forall j :: j in before ==> j in jobs && jobs[j] == before[j]
        invariant created + duplicates + ineligible == i
        invariant |jobs| == |before| + created
      {
        if !eligible[i] {
          ineligible := ineligible + 1;
          continue;
        }
        var result := BuildKey(h, r, source, ids, rule.dests[i]);
        var key := result.key;
        var job := Job(key, Token(h, key), r, rule.version, rule.conn, source, ids, rule.dests[i],
                       Fresh(now + rule.delayMs * i * MILLISECOND));
        assert job == NewJob(KeysOf(h), r, rule, source, ids, i, now);
        var isNew := CreateIfAbsent(newIds[i], job);
        if isNew {
          created := created + 1;
        } else {
          duplicates := duplicates + 1;
        }
      }
      forall i: nat | i < |newIds|
        ensures newIds[i] in jobs ==> eligible[i] && JE.QueuedFor(jobs[newIds[i]], KeysOf(h), r, rule, source, ids, i, now)
        ensures eligible[i] && JE.NewKeyAt(KeysOf(h), before, r, rule, source, ids, eligible, i) ==> newIds[i] in jobs
      {
        JE.IntakeQueues(KeysOf(h), before, r, rule, source, ids, eligible, newIds, now, |newIds|, i);
      }
    }

    // ----------------------------------------------------------------------
    // Claiming
    // ----------------------------------------------------------------------

    /** Leased work on the connection, the rows of the batch aside. */
    method InFlightCount(c: ConnId, exclude: seq<RowId>) returns (n: nat)
      ensures n == |LeasedExcept(jobs, c, exclude)|
      ensures n == |set j | j in jobs && jobs[j].lease.status == Leased && jobs[j].conn == c && j !in exclude|
    {
      n := 0;
      var todo := jobs.Keys;
      ghost var counted: set<RowId> := {};
      while todo != {}
        invariant todo <= jobs.Keys && todo !! counted && n == |counted|
        invariant forall j :: j in counted <==> j in LeasedExcept(jobs, c, exclude) && j !in todo
        decreases |todo|
      {
        var j :| j in todo;
        todo := todo - {j};
        if jobs[j].lease.status == Leased && jobs[j].conn == c && j !in exclude {
          n, counted := n + 1, counted + {j};
        }
      }
      assert counted == LeasedExcept(jobs, c, exclude);
      assert counted == set j | j in jobs && jobs[j].lease.status == Leased && jobs[j].conn == c && j !in exclude;
    }

    /** Leases the whole batch, then hands back what exceeds a connection's ceiling: what stays
        leased is what greedy admission keeps, and the rest is exactly as it was. */
    method ClaimWithinLimits(w: WorkerId, batch: seq<RowId>, limit: nat, deadline: Time) returns (accepted: seq<RowId>)
      requires Claimables(jobs, batch)
      modifies `jobs
      ensures jobs == ClaimedRows(old(jobs), Accepted(old(jobs), batch, limit), w, deadline)
      ensures accepted == Kept(ConnsOf(old(jobs), batch), batch, BusyOn(old(jobs)), limit, |batch|)
      ensures jobs.Keys == old(jobs).Keys && forall j :: j in jobs ==>
        if j in accepted then JE.ClaimedRow(old(jobs)[j], jobs[j], w, deadline) else jobs[j] == old(jobs)[j]
    {
      ghost var before := jobs;
      jobs := ClaimedRows(jobs, Members(batch), w, deadline);
      accepted := [];
      var perConnection: map<ConnId, nat> := map[];
      WeighingStarts(before, batch, limit, w, deadline);
      for i := 0 to |batch|
        invariant Weighed(before, jobs, batch, limit, w, deadline, perConnection, accepted, i)
      {
        WeighedRow(before, jobs, batch, limit, w, deadline, perConnection, accepted, i);
        var c := jobs[batch[i]].conn;
        var inFlight: nat;
        if c in perConnection {
          inFlight := perConnection[c];
        } else {
          inFlight := InFlightCount(c, batch);
        }
        WeighingGoesOn(before, jobs, batch, limit, w, deadline, perConnection, accepted, i, inFlight);
        if inFlight >= limit {
          jobs := Put(jobs, batch[i], Released(jobs[batch[i]].lease));
        } else {
          perConnection := perConnection[c := inFlight + 1];
          accepted := accepted + [batch[i]];
        }
      }
      WeighingEnds(before, jobs, batch, limit, w, deadline, perConnection, accepted);
      KeptIsAccepted(before, batch, limit);
    }

    // ----------------------------------------------------------------------
    // Leases in the course of processing
    // ----------------------------------------------------------------------

    /** UPDATE ... WHERE id = j AND lease_owner = w: the owner's row gets the new expiry and keeps
        everything else; every other row is as it was. */
    method Heartbeat(j: RowId, w: WorkerId, deadline: Time)
      modifies `jobs
      ensures JE.SameRows(old(jobs), jobs, {j})
      ensures j in jobs ==> JE.Extended(old(jobs)[j], jobs[j], w, deadline)
      ensures jobs == if j in old(jobs) then Put(old(jobs), j, Heartbeaten(old(jobs)[j].lease, w, deadline)) else old(jobs)
    {
      if j in jobs && jobs[j].lease.owner == Some(w) {
        jobs := jobs[j := jobs[j].(lease := jobs[j].lease.(expires := Some(deadline)))];
      }
    }

    /** Returns leases that have run out to the queue, up to `limit` of them at a time: pending, with
        no lease, otherwise as they were. */
    method ReclaimExpired(now: Time, limit: nat) returns (reclaimed: set<RowId>)
      modifies `jobs
      ensures forall j :: j in reclaimed ==> j in old(jobs) && RunOut(old(jobs)[j].lease, now)
      ensures |reclaimed| <= limit
      ensures |reclaimed| == limit || forall j :: j in jobs ==> !RunOut(jobs[j].lease, now)
      ensures JE.SameRows(old(jobs), jobs, reclaimed)
      ensures forall j :: j in reclaimed ==>
        jobs[j] == old(jobs)[j].(lease := Lease(Pending, old(jobs)[j].lease.attempts, old(jobs)[j].lease.notBefore, None, None))
      ensures jobs == ReleasedRows(old(jobs), reclaimed)
    {
      var lapsed := set j | j in jobs && RunOut(jobs[j].lease, now);
      reclaimed := {};
      while |reclaimed| < limit && lapsed != {}
        invariant reclaimed !! lapsed
        invariant reclaimed + lapsed == set j | j in jobs && RunOut(jobs[j].lease, now)
        invariant |reclaimed| <= limit
        decreases |lapsed|
      {
        var j :| j in lapsed;
        reclaimed, lapsed := reclaimed + {j}, lapsed - {j};
      }
      jobs := ReleasedRows(jobs, reclaimed);
    }

    /** Every waiting or leased job of the rule is skipped and gives up its lease; its attempts and its
        release time stay, as does every other row. */
    method CancelPendingForRule(r: string)
      modifies `jobs
      ensures jobs.Keys == old(jobs).Keys
      ensures forall j :: j in jobs ==> if old(jobs)[j].rule == r then Dropped(old(jobs)[j], jobs[j]) else jobs[j] == old(jobs)[j]
      ensures jobs == CancelledForRule(old(jobs), r)
    {
      jobs := CancelledForRule(jobs, r);
    }

    /** The same for every job of the connection. */
    method CancelPendingForConnection(c: ConnId)
      modifies `jobs
      ensures jobs.Keys == old(jobs).Keys
      ensures forall j :: j in jobs ==> if old(jobs)[j].conn == c then Dropped(old(jobs)[j], jobs[j]) else jobs[j] == old(jobs)[j]
      ensures jobs == CancelledForConnection(old(jobs), c)
    {
      jobs := CancelledForConnection(jobs, c);
    }

    /** Every failed, ambiguous or dead job of the rule is due at once, with no attempts and no owner;
        the expiry column stays, as does every other row. */
    method RequeueFailed(r: string, now: Time)
      modifies `jobs
      ensures jobs.Keys == old(jobs).Keys
      ensures forall j :: j in jobs ==> if old(jobs)[j].rule == r then Revived(old(jobs)[j], jobs[j], now) else jobs[j] == old(jobs)[j]
      ensures jobs == RequeuedForRule(old(jobs), r, now)
    {
      jobs := RequeuedForRule(jobs, r, now);
    }

    method Finish(j: RowId, status: JobStatus)
      requires j in jobs
      modifies `jobs
      ensures JE.SameRows(old(jobs), jobs, {j}) && JE.OnlyLease(old(jobs)[j], jobs[j])
      ensures Outcomes.Ends(old(jobs)[j].lease, jobs[j].lease, status)
      ensures jobs == Put(old(jobs), j, Finished(old(jobs)[j].lease, status))
    {
      jobs := jobs[j := jobs[j].(lease := jobs[j].lease.(status := status, owner := None, expires := None))];
    }

    method Reschedule(j: RowId, delay: Time, now: Time)
      requires j in jobs
      modifies `jobs
      ensures JE.SameRows(old(jobs), jobs, {j}) && JE.OnlyLease(old(jobs)[j], jobs[j])
      ensures Outcomes.TriedAgain(old(jobs)[j].lease, jobs[j].lease, now + delay, now + delay)
      ensures jobs == Put(old(jobs), j, Rescheduled(old(jobs)[j].lease, now + delay))
    {
      var l := jobs[j].lease;
      jobs := jobs[j := jobs[j].(lease := Lease(Pending, l.attempts + 1, now + delay, None, None))];
    }

    // ----------------------------------------------------------------------
    // The guards before a send
    // ----------------------------------------------------------------------

    /** A job queued under an older version of its rule: the reason to skip it, if there is one.
        `passes` is what the other filters say of a message whose text was never kept. */
    method HandleStale(job: Job, rule: Rule, passes: bool) returns (stale: Stale)
      ensures stale == DestinationRemoved <==> forall i :: 0 <= i < |rule.dests| ==> rule.dests[i] != job.dest
      ensures stale == FilteredAfterEdit <==> job.dest in rule.dests && rule.keywords
      ensures stale == FilterRefuses <==> job.dest in rule.dests && !rule.keywords && !passes
    {
      if job.dest !in rule.dests {
        return DestinationRemoved;
      }
      if rule.keywords {
        return FilteredAfterEdit;
      }
      return if passes then NotStale else FilterRefuses;
    }

    /** The guards of a job in the order of the code. What they ask of the owner, the chats and Telegram
        are answers from outside. */
    method CheckGuards(job: Job, ownerActive: bool, known: ConnStatus, chatsKnown: bool, passes: bool, mayPost: bool)
      returns (refusal: Refusal)
      ensures refusal == Deliver <==>
        (job.rule in rules && ownerActive && known == ConnActive && rules[job.rule].status == RuleActive && chatsKnown && mayPost
         && (job.version == rules[job.rule].version
             || (job.dest in rules[job.rule].dests && !rules[job.rule].keywords && passes)))
      ensures refusal == Deliver ==> F.StillWanted(job, rules[job.rule])
    {
      if job.rule !in rules || !ownerActive {
        return RuleInactive;
      }
      var rule := rules[job.rule];
      if known != ConnActive {
        return NotConnected;
      }
      if rule.status != RuleActive {
        return RuleInactive;
      }
      if !chatsKnown {
        return ChatGone;
      }
      if job.version != rule.version {
        var stale := HandleStale(job, rule, passes);
        if stale != NotStale {
          return Outdated(stale);
        }
      }
      return if mayPost then Deliver else NotEligible;
    }

    // ----------------------------------------------------------------------
    // Pauses, and the outcome of a send
    // ----------------------------------------------------------------------

    /** Pausing a rule that is already paused changes nothing. */
    method PauseRule(r: string)
      modifies `rules
      ensures rules == if r in old(rules) then old(rules)[r := old(rules)[r].(status := RulePaused)] else old(rules)
    {
      if r !in rules || rules[r].status == RulePaused {
        return;
      }
      rules := rules[r := rules[r].(status := RulePaused)];
    }

    /** The active rules of the connection pause, one by one. */
    method PauseRules(c: ConnId)
      modifies `rules
      ensures rules == PausedOn(old(rules), c)
      ensures rules.Keys == old(rules).Keys && forall r :: r in rules ==>
        rules[r] == if old(rules)[r].conn == c && old(rules)[r].status == RuleActive then old(rules)[r].(status := RulePaused)
                    else old(rules)[r]
    {
      ghost var before, after := rules, PausedOn(rules, c);
      var todo := ActiveOn(rules, c);
      Sweeping.SweepStarts(before, after, todo);
      while todo != {}
        invariant todo <= ActiveOn(before, c)
        invariant forall r :: Sweeping.SweptUpTo(before, rules, after, todo, r)
        decreases |todo|
      {
        var r :| r in todo;
        assert Sweeping.SweptUpTo(before, rules, after, todo, r);
        Sweeping.SweepOneMore(before, rules, after, todo, r, rules[r := rules[r].(status := RulePaused)], todo - {r});
        rules := rules[r := rules[r].(status := RulePaused)];
        todo := todo - {r};
      }
      Sweeping.SweepEnds(before, rules, after);
    }

    /** Every active rule of the connection pauses, then its unstarted jobs are cancelled. `known` is
        the connection's status as the caller loaded it: if it was paused already, nothing happens. */
    method PauseConnection(c: ConnId, known: ConnStatus)
      modifies this
      ensures rules == if known == PausedSafety then old(rules) else PausedOn(old(rules), c)
      ensures jobs == if known == PausedSafety then old(jobs) else CancelledForConnection(old(jobs), c)
      ensures known != PausedSafety ==> forall j :: j in jobs ==>
        if old(jobs)[j].conn == c then Dropped(old(jobs)[j], jobs[j]) else jobs[j] == old(jobs)[j]
    {
      if known == PausedSafety {
        return;
      }
      PauseRules(c);
      CancelPendingForConnection(c);
    }

    /** The tables are those of the given state of the forwarding machine. */
    ghost predicate Holds(f: F.Forward)
      reads this
    {
      rules == f.rules && jobs == f.jobs
    }

    /** What the worker writes once a send is over: the commit of the machine. */
    method CommitReport(ghost cfg: F.Config, ghost f: F.Forward, t: F.Task, report: Report, settings: Settings,
                        backoff: Time, tooManyFailures: bool, now: Time)
      returns (pausedConnection: bool)
      requires Holds(f) && cfg.settings == settings
      requires F.Enabled(cfg, now, f, F.Commit(t, backoff, tooManyFailures)) && f.hands[t] == F.Sent(report)
      modifies this
      ensures Holds(F.Apply(cfg, now, f, F.Commit(t, backoff, tooManyFailures)))
      ensures pausedConnection <==> report.Refused? && report.cls == Auth
      ensures t.job in jobs && JE.OnlyLease(old(jobs)[t.job], jobs[t.job])
      ensures Outcomes.Outcome(old(jobs)[t.job].lease, jobs[t.job].lease, report,
                               JE.AttemptLimit(old(rules)[old(jobs)[t.job].rule], settings), now)
    {
      JE.CommitWrites(cfg, now, f, t, backoff, tooManyFailures);
      pausedConnection := false;
      if report.Receipt? {
        Finish(t.job, Succeeded);
      } else if report.Ambiguous? {
        Finish(t.job, NeedsAttention);
      } else {
        pausedConnection := HandleFailure(t.job, report, settings, backoff, tooManyFailures, now);
      }
    }

    /** A refused send, branch by branch. The guards let only active connections send, so active is
        the status that a failure finds. */
    method HandleFailure(j: RowId, report: Report, settings: Settings, backoff: Time, tooManyFailures: bool, now: Time)
      returns (pausedConnection: bool)
      requires j in jobs && jobs[j].rule in rules && report.Refused?
      modifies this
      ensures var job := old(jobs)[j];
        var cap := Max(1, Min(old(rules)[job.rule].maxAttempts, settings.maxAttempts));
        var d := Decide(report, job.lease.attempts, cap, settings.floodPause, backoff);
        && pausedConnection == d.pausesConnection
        && jobs == Put(if d.pausesConnection then CancelledForConnection(old(jobs), job.conn) else old(jobs),
                       j, Applied(job.lease, d.verdict, now))
        && rules == if d.pausesConnection then PausedOn(old(rules), job.conn)
                    else if d.pausesOwner || (d.strike && tooManyFailures)
                    then old(rules)[job.rule := old(rules)[job.rule].(status := RulePaused)]
                    else old(rules)
    {
      var job := jobs[j];
      pausedConnection := report.cls == Auth;
      if report.cls == Auth {
        PauseConnection(job.conn, ConnActive);
        Finish(j, Failed);
      } else if report.cls == Permission || report.cls == PermanentContent {
        Finish(j, Skipped);
      } else if report.cls == RateLimit {
        var wait := if report.wait.Some? then report.wait.value else 60 * SECOND;
        if wait >= settings.floodPause {
          PauseRule(job.rule);
        }
        Reschedule(j, wait, now);
      } else if job.lease.attempts + 1 >= Min(rules[job.rule].maxAttempts, settings.maxAttempts) {
        Finish(j, DeadLetter);
        if tooManyFailures {
          PauseRule(job.rule);
        }
      } else {
        Reschedule(j, backoff, now);
      }
    }
  }

  /** The lease has run out. */
  predicate RunOut(l: Lease, now: Time) {
    l.status == Leased && l.expires.Some? && l.expires.value < now
  }

  /** A row before and after a cancellation: what has not come to an end is skipped. */
  predicate Dropped(before: Job, after: Job) {
    if before.lease.status == Pending || before.lease.status == Leased
    then after == before.(lease := Lease(Skipped, before.lease.attempts, before.lease.notBefore, None, None))
    else after == before
  }

  /** A row before and after a manual retry. */
  predicate Revived(before: Job, after: Job, now: Time) {
    if before.lease.status == Failed || before.lease.status == NeedsAttention || before.lease.status == DeadLetter
    then after == before.(lease := Lease(Pending, 0, now, None, before.lease.expires))
    else after == before
  }

  function ActiveOn(rules: RuleTable, c: ConnId): set<string> {
    set r | r in rules && rules[r].conn == c && rules[r].status == RuleActive
  }

  // ------------------------------------------------------------------------
  // The claim loop on forwarding rows
  // ------------------------------------------------------------------------

  function LeasedExcept(jobs: JobTable, c: ConnId, exclude: seq<RowId>): set<RowId> {
    set j | j in LeasedOn(jobs, c) && j !in exclude
  }

  /** What a claimed batch looks like before the claim: waiting, tidy, no row twice. */
  ghost predicate Claimables(before: JobTable, batch: seq<RowId>) {
    && (forall k :: 0 <= k < |batch| ==>
          batch[k] in before && before[batch[k]].lease.status == Pending && Tidy(before[batch[k]].lease))
    && (forall k, m :: 0 <= k < m < |batch| ==> batch[k] != batch[m])
  }

  ghost predicate Weighed(before: JobTable, jobs: JobTable, batch: seq<RowId>, limit: nat, w: WorkerId, deadline: Time,
                          perConnection: map<ConnId, nat>, accepted: seq<RowId>, i: nat)
  {
    && Claimables(before, batch)
    && Weighing.After(before, ClaimedRows(before, Members(batch), w, deadline), jobs, batch,
                      ConnsOf(before, batch), BusyOn(before), limit, perConnection, accepted, i)
  }

  lemma WeighingStarts(before: JobTable, batch: seq<RowId>, limit: nat, w: WorkerId, deadline: Time)
    requires Claimables(before, batch)
    ensures Weighed(before, ClaimedRows(before, Members(batch), w, deadline), batch, limit, w, deadline, map[], [], 0)
  {
    Weighing.Starts(before, ClaimedRows(before, Members(batch), w, deadline), batch, ConnsOf(before, batch), BusyOn(before), limit);
  }

  /** The next row is still leased by the batch, and the rows of the batch do not count against it. */
  lemma WeighedRow(before: JobTable, jobs: JobTable, batch: seq<RowId>, limit: nat, w: WorkerId, deadline: Time,
                   perConnection: map<ConnId, nat>, accepted: seq<RowId>, i: nat)
    requires Weighed(before, jobs, batch, limit, w, deadline, perConnection, accepted, i) && i < |batch|
    ensures batch[i] in jobs && jobs[batch[i]] == before[batch[i]].(lease := Claimed(before[batch[i]].lease, w, deadline))
    ensures Put(jobs, batch[i], Released(jobs[batch[i]].lease)) == jobs[batch[i] := before[batch[i]]]
    ensures |LeasedExcept(jobs, jobs[batch[i]].conn, batch)| == InFlight(before, jobs[batch[i]].conn)
  {
    var claimed := ClaimedRows(before, Members(batch), w, deadline);
    assert Weighing.Handled(before, claimed, jobs, batch, ConnsOf(before, batch), BusyOn(before), limit, i, batch[i]);
    var c := jobs[batch[i]].conn;
    forall j ensures j in LeasedExcept(jobs, c, batch) <==> j in LeasedOn(before, c) {
      assert Weighing.Handled(before, claimed, jobs, batch, ConnsOf(before, batch), BusyOn(before), limit, i, j);
    }
    assert LeasedExcept(jobs, c, batch) == LeasedOn(before, c);
  }

  lemma WeighingGoesOn(before: JobTable, jobs: JobTable, batch: seq<RowId>, limit: nat, w: WorkerId, deadline: Time,
                       perConnection: map<ConnId, nat>, accepted: seq<RowId>, i: nat, inFlight: nat)
    requires Weighed(before, jobs, batch, limit, w, deadline, perConnection, accepted, i) && i < |batch| && batch[i] in jobs
    requires var c := jobs[batch[i]].conn;
      inFlight == if c in perConnection then perConnection[c] else |LeasedExcept(jobs, c, batch)|
    ensures if inFlight >= limit then
              Weighed(before, Put(jobs, batch[i], Released(jobs[batch[i]].lease)), batch, limit, w, deadline,
                      perConnection, accepted, i + 1)
            else
              Weighed(before, jobs, batch, limit, w, deadline,
                      perConnection[jobs[batch[i]].conn := inFlight + 1], accepted + [batch[i]], i + 1)
  {
    WeighedRow(before, jobs, batch, limit, w, deadline, perConnection, accepted, i);
    Weighing.GoesOn(before, ClaimedRows(before, Members(batch), w, deadline), jobs, batch,
                    ConnsOf(before, batch), BusyOn(before), limit, perConnection, accepted, i, inFlight);
  }

  lemma WeighingEnds(before: JobTable, jobs: JobTable, batch: seq<RowId>, limit: nat, w: WorkerId, deadline: Time,
                     perConnection: map<ConnId, nat>, accepted: seq<RowId>)
    requires Weighed(before, jobs, batch, limit, w, deadline, perConnection, accepted, |batch|)
    ensures jobs == ClaimedRows(before, Accepted(before, batch, limit), w, deadline)
    ensures accepted == Kept(ConnsOf(before, batch), batch, BusyOn(before), limit, |batch|)
  {
    var claimed := ClaimedRows(before, Members(batch), w, deadline);
    var rows := Accepted(before, batch, limit);
    var conns, base := ConnsOf(before, batch), BusyOn(before);
    forall j ensures (j in jobs <==> j in before) && (j in before ==> jobs[j] == ClaimedRows(before, rows, w, deadline)[j]) {
      Weighing.Ends(before, claimed, jobs, batch, conns, base, limit, perConnection, accepted, j);
      AcceptedIsKept(before, batch, limit, j);
    }
  }

  lemma AcceptedIsKept(before: JobTable, batch: seq<RowId>, limit: nat, j: RowId)
    requires Claimables(before, batch)
    ensures j in Accepted(before, batch, limit) <==> j in Kept(ConnsOf(before, batch), batch, BusyOn(before), limit, |batch|)
    ensures j in Accepted(before, batch, limit) ==> j in Members(batch)
  {
    if j in batch {
      var k :| 0 <= k < |batch| && batch[k] == j;
      KeptExactly(ConnsOf(before, batch), batch, BusyOn(before), limit, |batch|, k);
    } else {
      KeptFromFront(ConnsOf(before, batch), batch, BusyOn(before), limit, |batch|);
    }
  }

  /** What the loop keeps in order is what the claim accepts as a set. */
  lemma KeptIsAccepted(before: JobTable, batch: seq<RowId>, limit: nat)
    requires Claimables(before, batch)
    ensures forall j :: j in Kept(ConnsOf(before, batch), batch, BusyOn(before), limit, |batch|) <==> j in Accepted(before, batch, limit)
  {
    var kept := Kept(ConnsOf(before, batch), batch, BusyOn(before), limit, |batch|);
    KeptFromFront(ConnsOf(before, batch), batch, BusyOn(before), limit, |batch|);
    forall j ensures j in kept <==> j in Accepted(before, batch, limit) {
      if j in batch {
        var i: nat :| i < |batch| && batch[i] == j;
        KeptExactly(ConnsOf(before, batch), batch, BusyOn(before), limit, |batch|, i);
      }
    }
  }
}
