/** Every action of the forwarding machine keeps its invariants. The proofs work row by row: each
    invariant says something of one row, one task or one pair of rows, and a `Follows` lemma carries
    it to the new state from what the action did to that row. An action that touches neither the
    jobs nor the hands, or only cancels and releases, is covered by `Quietly` and the lemmas after
    it; sending, committing and claiming have lemmas of their own. */
module ForwardingSafety {
  import opened Types
  import opened Leases
  import opened Delivery
  import opened Idempotency
  import opened Jobs
  import opened Forwarding
  import opened Admission

  // ------------------------------------------------------------------------
  // Intake
  // ------------------------------------------------------------------------

  /** Intake disturbs no existing row, adds only jobs of this rule under the given ids, and never
      creates a second row for a key. */
  lemma {:induction false} DispatchedAdds(keys: Keys, jobs: JobTable, r: string, rule: Rule, source: Peer,
      ids: seq<int>, eligible: seq<bool>, newIds: seq<RowId>, now: Time, n: nat)
    requires ids != [] && n <= |rule.dests| == |eligible| == |newIds|
    requires forall i :: 0 <= i < |newIds| ==> newIds[i] !in jobs
    requires forall i, k :: 0 <= i < k < |newIds| ==> newIds[i] != newIds[k]
    requires KeysUnique(jobs)
    ensures var after := Dispatched(keys, jobs, r, rule, source, ids, eligible, newIds, now, n);
      && KeysUnique(after)
      && (forall j :: j in jobs ==> j in after && after[j] == jobs[j])
      && (forall j :: j in after && j !in jobs ==>
            exists i :: 0 <= i < n && newIds[i] == j && after[j] == NewJob(keys, r, rule, source, ids, i, now))
  {
    if n > 0 {
      DispatchedAdds(keys, jobs, r, rule, source, ids, eligible, newIds, now, n - 1);
      var before := Dispatched(keys, jobs, r, rule, source, ids, eligible, newIds, now, n - 1);
      var job := NewJob(keys, r, rule, source, ids, n - 1, now);
      if eligible[n - 1] && !HasKey(before, job.key) {
        assert newIds[n - 1] !in before;
        var after := before[newIds[n - 1] := job];
        forall i, k ensures SameKeySameRow(after, i, k) {
          assert SameKeySameRow(before, i, k);
        }
        forall j | j in after && j !in jobs
          ensures exists i :: 0 <= i < n && newIds[i] == j && after[j] == NewJob(keys, r, rule, source, ids, i, now)
        {
          if j == newIds[n - 1] {
          } else {
            assert j in before;
          }
        }
      }
    }
  }

  /** Every eligible destination has a row for its delivery afterwards: suppression never loses one. */
  lemma {:induction false} DispatchedCovers(keys: Keys, jobs: JobTable, r: string, rule: Rule, source: Peer,
      ids: seq<int>, eligible: seq<bool>, newIds: seq<RowId>, now: Time, n: nat, i: nat)
    requires ids != [] && n <= |rule.dests| == |eligible| == |newIds|
    requires forall i :: 0 <= i < |newIds| ==> newIds[i] !in jobs
    requires forall i, k :: 0 <= i < k < |newIds| ==> newIds[i] != newIds[k]
    requires KeysUnique(jobs)
    requires i < n && eligible[i]
    ensures HasKey(Dispatched(keys, jobs, r, rule, source, ids, eligible, newIds, now, n),
                   keys.key(RouteOf(r, source, ids, rule.dests[i])))
  {
    var key := keys.key(RouteOf(r, source, ids, rule.dests[i]));
    var before := Dispatched(keys, jobs, r, rule, source, ids, eligible, newIds, now, n - 1);
    var after := Dispatched(keys, jobs, r, rule, source, ids, eligible, newIds, now, n);
    DispatchedAdds(keys, jobs, r, rule, source, ids, eligible, newIds, now, n - 1);
    if i == n - 1 {
      if !HasKey(before, key) {
        assert after[newIds[i]].key == key;
      }
    } else {
      DispatchedCovers(keys, jobs, r, rule, source, ids, eligible, newIds, now, n - 1, i);
      var j :| j in before && before[j].key == key;
      assert newIds[n - 1] !in before;
      assert after[j].key == key;
    }
  }

  // ------------------------------------------------------------------------
  // Quiet changes: no row appears, nothing is taken in hand, no outcome is written
  // ------------------------------------------------------------------------

  ghost predicate ShapeOf(rules: RuleTable, rules': RuleTable, r: string) {
    r in rules ==> r in rules' && rules'[r].conn == rules[r].conn && rules'[r].maxAttempts == rules[r].maxAttempts
  }

  /** Rules keep their connection and their attempt limit, and none disappears. */
  ghost predicate SameShape(rules: RuleTable, rules': RuleTable) {
    forall r :: ShapeOf(rules, rules', r)
  }

  /** A lease that stays, or goes back to the queue, or is cancelled. */
  predicate Quiet(l: Lease, m: Lease) {
    || m == l
    || (l.status in {Pending, Leased, Skipped} && m.status in {Pending, Skipped}
        && m == Lease(m.status, l.attempts, l.notBefore, None, None))
  }

  ghost predicate QuietJob(jobs: JobTable, jobs': JobTable, j: RowId) {
    && (j in jobs <==> j in jobs')
    && (j in jobs ==> jobs'[j] == jobs[j].(lease := jobs'[j].lease) && Quiet(jobs[j].lease, jobs'[j].lease))
  }

  ghost predicate QuietJobs(jobs: JobTable, jobs': JobTable) {
    forall j :: QuietJob(jobs, jobs', j)
  }

  ghost predicate QuietHand(hands: map<Task, Phase>, hands': map<Task, Phase>, t: Task) {
    && (t in hands' ==> t in hands)
    && (LandedBy(hands', t) <==> LandedBy(hands, t))
    && (t in hands' && hands'[t] == Armed(false) ==> hands[t] == Armed(false))
  }

  /** Tasks may be dropped or loaded, but none is armed, and none that has landed is lost. */
  ghost predicate QuietHands(hands: map<Task, Phase>, hands': map<Task, Phase>) {
    forall t :: QuietHand(hands, hands', t)
  }

  ghost predicate Untouched(jobs: JobTable, jobs': JobTable, hands': map<Task, Phase>, t: Task) {
    t in hands' && t.job in jobs && t.job in jobs' ==>
      jobs'[t.job].lease == jobs[t.job].lease || jobs'[t.job].lease.status == Skipped
  }

  /** What is still in hand was not touched, or was cancelled. */
  ghost predicate StillHeld(jobs: JobTable, jobs': JobTable, hands': map<Task, Phase>) {
    forall t :: Untouched(jobs, jobs', hands', t)
  }

  lemma RowsFollow(cfg: Config, rules: RuleTable, jobs: JobTable, rules': RuleTable, jobs': JobTable)
    requires RowsSound(cfg, rules, jobs) && KeysUnique(jobs)
    requires QuietJobs(jobs, jobs') && SameShape(rules, rules')
    ensures RowsSound(cfg, rules', jobs') && KeysUnique(jobs')
  {
    forall j ensures RowSound(cfg, rules', jobs', j) {
      assert RowSound(cfg, rules, jobs, j) && QuietJob(jobs, jobs', j);
      if j in jobs {
        assert ShapeOf(rules, rules', jobs[j].rule);
        assert jobs[j].ids != [] ==> jobs'[j].Route() == jobs[j].Route();
      }
    }
    forall i, j ensures SameKeySameRow(jobs', i, j) {
      assert SameKeySameRow(jobs, i, j) && QuietJob(jobs, jobs', i) && QuietJob(jobs, jobs', j);
    }
  }

  lemma HandsFollow(jobs: JobTable, hands: map<Task, Phase>, jobs': JobTable, hands': map<Task, Phase>, now: Time)
    requires HandsSound(jobs, hands, now) && Exclusive(hands)
    requires QuietJobs(jobs, jobs') && QuietHands(hands, hands') && StillHeld(jobs, jobs', hands')
    ensures HandsSound(jobs', hands', now) && Exclusive(hands')
  {
    forall t ensures HandSound(jobs', hands', now, t) {
      assert HandSound(jobs, hands, now, t) && QuietJob(jobs, jobs', t.job);
      assert QuietHand(hands, hands', t) && Untouched(jobs, jobs', hands', t);
    }
    forall j, w, v ensures OneHolder(hands', j, w, v) {
      assert OneHolder(hands, j, w, v) && QuietHand(hands, hands', Task(w, j)) && QuietHand(hands, hands', Task(v, j));
    }
  }

  lemma CeilingFollows(cfg: Config, jobs: JobTable, jobs': JobTable)
    requires CeilingKept(cfg, jobs) && QuietJobs(jobs, jobs')
    ensures CeilingKept(cfg, jobs')
  {
    forall c ensures InFlight(jobs', c) <= cfg.settings.perConnectionInflight {
      forall j | j in LeasedOn(jobs', c) ensures j in LeasedOn(jobs, c) {
        assert QuietJob(jobs, jobs', j);
      }
      SubsetSize(LeasedOn(jobs', c), LeasedOn(jobs, c));
      assert InFlight(jobs, c) <= cfg.settings.perConnectionInflight;
    }
  }

  lemma RetriesFollow(cfg: Config, rules: RuleTable, jobs: JobTable, ledger: map<RowId, Ledger>, rules': RuleTable, jobs': JobTable)
    requires RetriesBounded(cfg, rules, jobs, ledger) && RowsSound(cfg, rules, jobs)
    requires QuietJobs(jobs, jobs') && SameShape(rules, rules')
    ensures RetriesBounded(cfg, rules', jobs', ledger)
  {
    forall j ensures RetryBounded(cfg, rules', jobs', ledger, j) {
      assert RetryBounded(cfg, rules, jobs, ledger, j) && RowSound(cfg, rules, jobs, j) && QuietJob(jobs, jobs', j);
      if j in jobs {
        assert ShapeOf(rules, rules', jobs[j].rule);
      }
    }
  }

  lemma LedgerFollows(jobs: JobTable, hands: map<Task, Phase>, ledger: map<RowId, Ledger>, jobs': JobTable, hands': map<Task, Phase>)
    requires LedgerBalances(jobs, hands, ledger)
    requires QuietJobs(jobs, jobs') && QuietHands(hands, hands')
    ensures LedgerBalances(jobs', hands', ledger)
  {
    forall j ensures Balances(jobs', hands', ledger, j) {
      assert Balances(jobs, hands, ledger, j) && QuietJob(jobs, jobs', j);
      forall w ensures LandedBy(hands', Task(w, j)) <==> LandedBy(hands, Task(w, j)) {
        assert QuietHand(hands, hands', Task(w, j));
      }
      SameLandings(hands, hands', j);
    }
  }

  lemma SameLandings(hands: map<Task, Phase>, hands': map<Task, Phase>, j: RowId)
    requires forall w :: LandedBy(hands', Task(w, j)) <==> LandedBy(hands, Task(w, j))
    ensures InHandLanded(hands', j) <==> InHandLanded(hands, j)
  {
  }

  lemma CopiesFollow(cfg: Config, rules: RuleTable, jobs: JobTable, hands: map<Task, Phase>, seen: set<(ConnId, int)>,
                     log: seq<Delivered>, copied: set<string>, rules': RuleTable, jobs': JobTable, hands': map<Task, Phase>)
    requires CopiesKnown(cfg, rules, jobs, hands, log, copied) && LogSound(cfg, rules, seen, log)
    requires QuietJobs(jobs, jobs') && SameShape(rules, rules') && QuietHands(hands, hands')
    ensures CopiesKnown(cfg, rules', jobs', hands', log, copied) && LogSound(cfg, rules', seen, log)
  {
    forall t ensures ArmedKnown(cfg, jobs', hands', copied, t) {
      assert ArmedKnown(cfg, jobs, hands, copied, t) && QuietJob(jobs, jobs', t.job) && QuietHand(hands, hands', t);
    }
    forall i | 0 <= i < |log| ensures CopyKnown(cfg, rules', copied, log[i]) && Remembered(cfg, rules', seen, log[i]) {
      assert CopyKnown(cfg, rules, copied, log[i]) && Remembered(cfg, rules, seen, log[i]);
      assert ShapeOf(rules, rules', log[i].route.rule);
    }
  }

  lemma Quietly(cfg: Config, now: Time, f: Forward, rules': RuleTable, jobs': JobTable, hands': map<Task, Phase>)
    requires Inv(cfg, f, now)
    requires QuietJobs(f.jobs, jobs') && SameShape(f.rules, rules')
    requires QuietHands(f.hands, hands') && StillHeld(f.jobs, jobs', hands')
    ensures Inv(cfg, f.(rules := rules', jobs := jobs', hands := hands'), now)
  {
    RowsFollow(cfg, f.rules, f.jobs, rules', jobs');
    HandsFollow(f.jobs, f.hands, jobs', hands', now);
    LedgerFollows(f.jobs, f.hands, f.ledger, jobs', hands');
    RetriesFollow(cfg, f.rules, f.jobs, f.ledger, rules', jobs');
    CeilingFollows(cfg, f.jobs, jobs');
    CopiesFollow(cfg, f.rules, f.jobs, f.hands, f.seen, f.log, f.copied, rules', jobs', hands');
  }

  lemma SameRulesSameShape(rules: RuleTable)
    ensures SameShape(rules, rules)
  {
    forall r ensures ShapeOf(rules, rules, r) {
    }
  }

  lemma SameJobsQuiet(jobs: JobTable, hands: map<Task, Phase>)
    ensures QuietJobs(jobs, jobs) && StillHeld(jobs, jobs, hands)
  {
    forall j ensures QuietJob(jobs, jobs, j) {
    }
    forall t ensures Untouched(jobs, jobs, hands, t) {
    }
  }

  lemma SameHandsQuiet(hands: map<Task, Phase>)
    ensures QuietHands(hands, hands)
  {
    forall t ensures QuietHand(hands, hands, t) {
    }
  }

  // ------------------------------------------------------------------------
  // The quiet actions
  // ------------------------------------------------------------------------

  lemma LoadKeeps(cfg: Config, now: Time, f: Forward, t: Task, active: bool)
    requires Inv(cfg, f, now) && t in f.hands && f.hands[t].Held?
    ensures Inv(cfg, f.(hands := f.hands[t := Loaded(active)]), now)
  {
    var hands' := f.hands[t := Loaded(active)];
    forall u ensures QuietHand(f.hands, hands', u) {
    }
    SameRulesSameShape(f.rules);
    SameJobsQuiet(f.jobs, hands');
    Quietly(cfg, now, f, f.rules, f.jobs, hands');
  }

  lemma CancelKeeps(cfg: Config, now: Time, f: Forward, on: Job -> bool, rules': RuleTable)
    requires Inv(cfg, f, now) && SameShape(f.rules, rules')
    ensures Inv(cfg, f.(rules := rules', jobs := Mapped(f.jobs, on, Cancelled)), now)
  {
    var jobs' := Mapped(f.jobs, on, Cancelled);
    forall j ensures QuietJob(f.jobs, jobs', j) {
    }
    forall t ensures Untouched(f.jobs, jobs', f.hands, t) {
    }
    SameHandsQuiet(f.hands);
    Quietly(cfg, now, f, rules', jobs', f.hands);
  }

  lemma WithdrawKeeps(cfg: Config, now: Time, f: Forward, c: ConnId)
    requires Inv(cfg, f, now)
    ensures Inv(cfg, Withdrawn(f, c), now)
  {
    forall r ensures ShapeOf(f.rules, PausedOn(f.rules, c), r) {
    }
    CancelKeeps(cfg, now, f, (j: Job) => j.conn == c, PausedOn(f.rules, c));
  }

  lemma ReclaimKeeps(cfg: Config, now: Time, f: Forward, rows: set<RowId>)
    requires Inv(cfg, f, now) && forall j :: j in rows ==> j in f.jobs && Lapsed(f.jobs[j].lease, now)
    ensures Inv(cfg, f.(jobs := ReleasedRows(f.jobs, rows)), now)
  {
    var jobs' := ReleasedRows(f.jobs, rows);
    forall j ensures QuietJob(f.jobs, jobs', j) {
      assert RowSound(cfg, f.rules, f.jobs, j);
    }
    forall t ensures Untouched(f.jobs, jobs', f.hands, t) {
      assert HandSound(f.jobs, f.hands, now, t);
    }
    SameRulesSameShape(f.rules);
    SameHandsQuiet(f.hands);
    Quietly(cfg, now, f, f.rules, jobs', f.hands);
  }

  lemma RuleKeeps(cfg: Config, now: Time, f: Forward, r: string, value: Rule)
    requires Inv(cfg, f, now)
    requires r in f.rules ==> value.conn == f.rules[r].conn && value.maxAttempts == f.rules[r].maxAttempts
    ensures Inv(cfg, f.(rules := f.rules[r := value]), now)
  {
    var rules' := f.rules[r := value];
    forall k ensures ShapeOf(f.rules, rules', k) {
    }
    SameJobsQuiet(f.jobs, f.hands);
    SameHandsQuiet(f.hands);
    Quietly(cfg, now, f, rules', f.jobs, f.hands);
  }

  // ------------------------------------------------------------------------
  // One row written by the worker that holds it
  // ------------------------------------------------------------------------

  lemma WriteKeepsRows(cfg: Config, rules: RuleTable, jobs: JobTable, j: RowId, l: Lease)
    requires RowsSound(cfg, rules, jobs) && KeysUnique(jobs) && j in jobs && Tidy(l)
    ensures RowsSound(cfg, rules, Put(jobs, j, l)) && KeysUnique(Put(jobs, j, l))
  {
    var jobs' := Put(jobs, j, l);
    forall k ensures RowSound(cfg, rules, jobs', k) {
      assert RowSound(cfg, rules, jobs, k);
      assert k in jobs && jobs[k].ids != [] ==> jobs'[k].Route() == jobs[k].Route();
    }
    forall i, k ensures SameKeySameRow(jobs', i, k) {
      assert SameKeySameRow(jobs, i, k);
    }
  }

  lemma WriteKeepsCeiling(cfg: Config, jobs: JobTable, j: RowId, l: Lease)
    requires CeilingKept(cfg, jobs) && j in jobs && (l.status == Leased ==> jobs[j].lease.status == Leased)
    ensures CeilingKept(cfg, Put(jobs, j, l))
  {
    forall c ensures InFlight(Put(jobs, j, l), c) <= cfg.settings.perConnectionInflight {
      SubsetSize(LeasedOn(Put(jobs, j, l), c), LeasedOn(jobs, c));
      assert InFlight(jobs, c) <= cfg.settings.perConnectionInflight;
    }
  }

  lemma WriteKeepsCopies(cfg: Config, rules: RuleTable, jobs: JobTable, hands: map<Task, Phase>, log: seq<Delivered>,
                         copied: set<string>, j: RowId, l: Lease)
    requires CopiesKnown(cfg, rules, jobs, hands, log, copied) && j in jobs
    ensures CopiesKnown(cfg, rules, Put(jobs, j, l), hands, log, copied)
  {
    var jobs' := Put(jobs, j, l);
    forall t ensures ArmedKnown(cfg, jobs', hands, copied, t) {
      assert ArmedKnown(cfg, jobs, hands, copied, t);
    }
  }

  // ------------------------------------------------------------------------
  // Heartbeat
  // ------------------------------------------------------------------------

  lemma HeartbeatKeepsHands(cfg: Config, rules: RuleTable, jobs: JobTable, hands: map<Task, Phase>, t: Task, now: Time, deadline: Time)
    requires HandsSound(jobs, hands, now) && RowsSound(cfg, rules, jobs) && t.job in jobs && now <= deadline
    ensures var l := Heartbeaten(jobs[t.job].lease, t.worker, deadline);
      Tidy(l) && HandsSound(Put(jobs, t.job, l), hands, now)
  {
    var l := Heartbeaten(jobs[t.job].lease, t.worker, deadline);
    assert RowSound(cfg, rules, jobs, t.job);
    var jobs' := Put(jobs, t.job, l);
    forall u ensures HandSound(jobs', hands, now, u) {
      assert HandSound(jobs, hands, now, u);
    }
  }

  lemma HeartbeatKeepsCounts(cfg: Config, rules: RuleTable, jobs: JobTable, hands: map<Task, Phase>,
                             ledger: map<RowId, Ledger>, t: Task, deadline: Time)
    requires LedgerBalances(jobs, hands, ledger) && RetriesBounded(cfg, rules, jobs, ledger) && t.job in jobs
    ensures var jobs' := Put(jobs, t.job, Heartbeaten(jobs[t.job].lease, t.worker, deadline));
      LedgerBalances(jobs', hands, ledger) && RetriesBounded(cfg, rules, jobs', ledger)
  {
    var jobs' := Put(jobs, t.job, Heartbeaten(jobs[t.job].lease, t.worker, deadline));
    forall j ensures Balances(jobs', hands, ledger, j) && RetryBounded(cfg, rules, jobs', ledger, j) {
      assert Balances(jobs, hands, ledger, j) && RetryBounded(cfg, rules, jobs, ledger, j);
    }
  }

  lemma HeartbeatKeeps(cfg: Config, now: Time, f: Forward, t: Task)
    requires Inv(cfg, f, now) && t in f.hands && t.job in f.jobs && cfg.settings.leaseTime >= 0
    ensures Inv(cfg, Write(f, t.job, Heartbeaten(f.jobs[t.job].lease, t.worker, now + cfg.settings.leaseTime)), now)
  {
    var deadline := now + cfg.settings.leaseTime;
    var l := Heartbeaten(f.jobs[t.job].lease, t.worker, deadline);
    HeartbeatKeepsHands(cfg, f.rules, f.jobs, f.hands, t, now, deadline);
    HeartbeatKeepsCounts(cfg, f.rules, f.jobs, f.hands, f.ledger, t, deadline);
    WriteKeepsRows(cfg, f.rules, f.jobs, t.job, l);
    WriteKeepsCeiling(cfg, f.jobs, t.job, l);
    WriteKeepsCopies(cfg, f.rules, f.jobs, f.hands, f.log, f.copied, t.job, l);
  }

  // ------------------------------------------------------------------------
  // Intake
  // ------------------------------------------------------------------------

  /** What intake leaves behind: the old rows as they were, and new rows that are fresh jobs of the rule. */
  ghost predicate Extends(keys: Keys, r: string, rule: Rule, source: Peer, ids: seq<int>, jobs: JobTable, jobs': JobTable, now: Time, j: RowId)
    requires ids != []
  {
    && (j in jobs ==> j in jobs' && jobs'[j] == jobs[j])
    && (j in jobs' && j !in jobs ==>
          exists i :: 0 <= i < |rule.dests| && jobs'[j] == NewJob(keys, r, rule, source, ids, i, now))
  }

  lemma IntakeKeepsTables(cfg: Config, rules: RuleTable, jobs: JobTable, hands: map<Task, Phase>, ledger: map<RowId, Ledger>,
                          jobs': JobTable, r: string, source: Peer, ids: seq<int>, now: Time)
    requires RowsSound(cfg, rules, jobs) && HandsSound(jobs, hands, now)
    requires LedgerBalances(jobs, hands, ledger) && RetriesBounded(cfg, rules, jobs, ledger)
    requires r in rules && ids != []
    requires forall j :: Extends(cfg.keys, r, rules[r], source, ids, jobs, jobs', now, j)
    ensures RowsSound(cfg, rules, jobs') && HandsSound(jobs', hands, now)
    ensures LedgerBalances(jobs', hands, Opened(jobs', ledger)) && RetriesBounded(cfg, rules, jobs', Opened(jobs', ledger))
  {
    forall j ensures RowSound(cfg, rules, jobs', j) {
      assert RowSound(cfg, rules, jobs, j) && Extends(cfg.keys, r, rules[r], source, ids, jobs, jobs', now, j);
    }
    forall t ensures HandSound(jobs', hands, now, t) {
      assert HandSound(jobs, hands, now, t) && Extends(cfg.keys, r, rules[r], source, ids, jobs, jobs', now, t.job);
    }
    var ledger' := Opened(jobs', ledger);
    forall j ensures Balances(jobs', hands, ledger', j) && RetryBounded(cfg, rules, jobs', ledger', j) {
      assert Balances(jobs, hands, ledger, j) && RetryBounded(cfg, rules, jobs, ledger, j);
      assert Extends(cfg.keys, r, rules[r], source, ids, jobs, jobs', now, j);
      if j !in jobs {
        assert !InHandLanded(hands, j) by {
          forall w ensures !LandedBy(hands, Task(w, j)) {
            assert HandSound(jobs, hands, now, Task(w, j));
          }
        }
      }
    }
  }

  lemma IntakeKeepsCopies(cfg: Config, rules: RuleTable, jobs: JobTable, hands: map<Task, Phase>, log: seq<Delivered>,
                          copied: set<string>, jobs': JobTable, r: string, source: Peer, ids: seq<int>, now: Time)
    requires CeilingKept(cfg, jobs) && CopiesKnown(cfg, rules, jobs, hands, log, copied) && HandsSound(jobs, hands, now)
    requires r in rules && ids != []
    requires forall j :: Extends(cfg.keys, r, rules[r], source, ids, jobs, jobs', now, j)
    ensures CeilingKept(cfg, jobs') && CopiesKnown(cfg, rules, jobs', hands, log, copied)
  {
    forall c ensures InFlight(jobs', c) <= cfg.settings.perConnectionInflight {
      forall j ensures j in LeasedOn(jobs', c) <==> j in LeasedOn(jobs, c) {
        assert Extends(cfg.keys, r, rules[r], source, ids, jobs, jobs', now, j);
      }
      assert LeasedOn(jobs', c) == LeasedOn(jobs, c);
      assert InFlight(jobs, c) <= cfg.settings.perConnectionInflight;
    }
    forall t ensures ArmedKnown(cfg, jobs', hands, copied, t) {
      assert ArmedKnown(cfg, jobs, hands, copied, t) && HandSound(jobs, hands, now, t);
      assert Extends(cfg.keys, r, rules[r], source, ids, jobs, jobs', now, t.job);
    }
  }

  lemma DispatchKeeps(cfg: Config, now: Time, f: Forward, r: string, source: Peer, ids: seq<int>, eligible: seq<bool>, newIds: seq<RowId>)
    requires Inv(cfg, f, now)
    requires r in f.rules && ids != [] && |eligible| == |newIds| == |f.rules[r].dests|
    requires forall i :: 0 <= i < |newIds| ==> newIds[i] !in f.jobs
    requires forall i, k :: 0 <= i < k < |newIds| ==> newIds[i] != newIds[k]
    ensures var jobs' := Dispatched(cfg.keys, f.jobs, r, f.rules[r], source, ids, eligible, newIds, now, |newIds|);
      Inv(cfg, f.(jobs := jobs', ledger := Opened(jobs', f.ledger)), now)
  {
    var jobs' := Dispatched(cfg.keys, f.jobs, r, f.rules[r], source, ids, eligible, newIds, now, |newIds|);
    DispatchedAdds(cfg.keys, f.jobs, r, f.rules[r], source, ids, eligible, newIds, now, |newIds|);
    forall j ensures Extends(cfg.keys, r, f.rules[r], source, ids, f.jobs, jobs', now, j) {
    }
    IntakeKeepsTables(cfg, f.rules, f.jobs, f.hands, f.ledger, jobs', r, source, ids, now);
    IntakeKeepsCopies(cfg, f.rules, f.jobs, f.hands, f.log, f.copied, jobs', r, source, ids, now);
  }

  // ------------------------------------------------------------------------
  // Claiming
  // ------------------------------------------------------------------------

  /** Admission keeps the ceiling: what a connection has in flight, plus what is let in, fits. */
  lemma ClaimKeepsCeiling(cfg: Config, jobs: JobTable, batch: seq<RowId>, w: WorkerId, now: Time, capacity: nat, deadline: Time)
    requires CeilingKept(cfg, jobs) && IsBatch(jobs, batch, now, capacity)
    ensures CeilingKept(cfg, ClaimedRows(jobs, Accepted(jobs, batch, cfg.settings.perConnectionInflight), w, deadline))
  {
    var limit := cfg.settings.perConnectionInflight;
    var rows := Accepted(jobs, batch, limit);
    var jobs' := ClaimedRows(jobs, rows, w, deadline);
    forall c ensures InFlight(jobs', c) <= limit {
      assert InFlight(jobs, c) <= limit;
      ClaimKeepsCeilingOn(jobs, batch, w, now, capacity, deadline, limit, c);
    }
  }

  lemma ClaimTakesOnly(jobs: JobTable, batch: seq<RowId>, w: WorkerId, now: Time, capacity: nat, deadline: Time, limit: nat, c: ConnId)
    requires IsBatch(jobs, batch, now, capacity)
    ensures LeasedOn(ClaimedRows(jobs, Accepted(jobs, batch, limit), w, deadline), c)
         <= LeasedOn(jobs, c) + TakenOn(ConnsOf(jobs, batch), batch, BusyOn(jobs), limit, |batch|, c)
  {
  }

  lemma ClaimKeepsCeilingOn(jobs: JobTable, batch: seq<RowId>, w: WorkerId, now: Time, capacity: nat, deadline: Time, limit: nat, c: ConnId)
    requires InFlight(jobs, c) <= limit && IsBatch(jobs, batch, now, capacity)
    ensures InFlight(ClaimedRows(jobs, Accepted(jobs, batch, limit), w, deadline), c) <= limit
  {
    ClaimTakesOnly(jobs, batch, w, now, capacity, deadline, limit, c);
    TakenFits(ConnsOf(jobs, batch), batch, BusyOn(jobs), limit, c);
    WithinBoth(LeasedOn(ClaimedRows(jobs, Accepted(jobs, batch, limit), w, deadline), c),
               LeasedOn(jobs, c), TakenOn(ConnsOf(jobs, batch), batch, BusyOn(jobs), limit, |batch|, c));
  }

  ghost predicate Due(jobs: JobTable, hands: map<Task, Phase>, rows: set<RowId>, j: RowId) {
    j in rows ==> j in jobs && jobs[j].lease.status == Pending && forall w :: Task(w, j) !in hands
  }

  lemma AcceptedDue(jobs: JobTable, hands: map<Task, Phase>, batch: seq<RowId>, now: Time, capacity: nat, limit: nat)
    requires IsBatch(jobs, batch, now, capacity) && HandsSound(jobs, hands, now)
    ensures forall j :: Due(jobs, hands, Accepted(jobs, batch, limit), j)
  {
    forall j ensures Due(jobs, hands, Accepted(jobs, batch, limit), j) {
      if j in Accepted(jobs, batch, limit) {
        forall w ensures Task(w, j) !in hands {
          assert HandSound(jobs, hands, now, Task(w, j));
        }
      }
    }
  }

  /** The task a worker has after claiming is new: a job in hand is never due. */
  lemma ClaimKeepsHands(jobs: JobTable, hands: map<Task, Phase>, ledger: map<RowId, Ledger>, rows: set<RowId>, w: WorkerId,
                        now: Time, deadline: Time)
    requires HandsSound(jobs, hands, now) && Exclusive(hands) && LedgerBalances(jobs, hands, ledger) && now <= deadline
    requires forall j :: Due(jobs, hands, rows, j)
    ensures HandsSound(ClaimedRows(jobs, rows, w, deadline), TakenInHand(hands, rows, w), now)
    ensures Exclusive(TakenInHand(hands, rows, w))
    ensures LedgerBalances(ClaimedRows(jobs, rows, w, deadline), TakenInHand(hands, rows, w), ledger)
  {
    var jobs', hands' := ClaimedRows(jobs, rows, w, deadline), TakenInHand(hands, rows, w);
    forall t ensures HandSound(jobs', hands', now, t) {
      assert HandSound(jobs, hands, now, t) && Due(jobs, hands, rows, t.job);
    }
    forall j, v, u ensures OneHolder(hands', j, v, u) {
      assert OneHolder(hands, j, v, u) && Due(jobs, hands, rows, j);
    }
    forall j ensures Balances(jobs', hands', ledger, j) {
      assert Balances(jobs, hands, ledger, j) && Due(jobs, hands, rows, j);
      SameLandings(hands, hands', j);
    }
  }

  lemma ClaimKeepsRows(cfg: Config, rules: RuleTable, jobs: JobTable, hands: map<Task, Phase>, ledger: map<RowId, Ledger>,
                       rows: set<RowId>, w: WorkerId, deadline: Time)
    requires RowsSound(cfg, rules, jobs) && KeysUnique(jobs) && RetriesBounded(cfg, rules, jobs, ledger)
    requires forall j :: Due(jobs, hands, rows, j)
    ensures RowsSound(cfg, rules, ClaimedRows(jobs, rows, w, deadline)) && KeysUnique(ClaimedRows(jobs, rows, w, deadline))
    ensures RetriesBounded(cfg, rules, ClaimedRows(jobs, rows, w, deadline), ledger)
  {
    var jobs' := ClaimedRows(jobs, rows, w, deadline);
    forall j ensures RowSound(cfg, rules, jobs', j) && RetryBounded(cfg, rules, jobs', ledger, j) {
      assert RowSound(cfg, rules, jobs, j) && RetryBounded(cfg, rules, jobs, ledger, j) && Due(jobs, hands, rows, j);
      assert j in jobs && jobs[j].ids != [] ==> jobs'[j].Route() == jobs[j].Route();
    }
    forall i, k ensures SameKeySameRow(jobs', i, k) {
      assert SameKeySameRow(jobs, i, k);
    }
  }

  lemma ClaimKeepsCopies(cfg: Config, rules: RuleTable, jobs: JobTable, hands: map<Task, Phase>, log: seq<Delivered>,
                         copied: set<string>, rows: set<RowId>, w: WorkerId, deadline: Time)
    requires CopiesKnown(cfg, rules, jobs, hands, log, copied)
    ensures CopiesKnown(cfg, rules, ClaimedRows(jobs, rows, w, deadline), TakenInHand(hands, rows, w), log, copied)
  {
    var jobs', hands' := ClaimedRows(jobs, rows, w, deadline), TakenInHand(hands, rows, w);
    forall t ensures ArmedKnown(cfg, jobs', hands', copied, t) {
      assert ArmedKnown(cfg, jobs, hands, copied, t);
    }
  }

  lemma ClaimKeeps(cfg: Config, now: Time, f: Forward, w: WorkerId, batch: seq<RowId>, capacity: nat)
    requires Inv(cfg, f, now) && IsBatch(f.jobs, batch, now, capacity) && cfg.settings.leaseTime >= 0
    ensures Inv(cfg, Take(cfg, now, f, w, Accepted(f.jobs, batch, cfg.settings.perConnectionInflight)), now)
  {
    var rows := Accepted(f.jobs, batch, cfg.settings.perConnectionInflight);
    var deadline := now + cfg.settings.leaseTime;
    AcceptedDue(f.jobs, f.hands, batch, now, capacity, cfg.settings.perConnectionInflight);
    ClaimKeepsRows(cfg, f.rules, f.jobs, f.hands, f.ledger, rows, w, deadline);
    ClaimKeepsHands(f.jobs, f.hands, f.ledger, rows, w, now, deadline);
    ClaimKeepsCeiling(cfg, f.jobs, batch, w, now, capacity, deadline);
    ClaimKeepsCopies(cfg, f.rules, f.jobs, f.hands, f.log, f.copied, rows, w, deadline);
  }

  // ------------------------------------------------------------------------
  // Processing a job: refuse, arm, send, crash, commit
  // ------------------------------------------------------------------------

  lemma RefuseKeeps(cfg: Config, now: Time, f: Forward, t: Task)
    requires Inv(cfg, f, now) && t in f.hands && f.hands[t].Loaded? && t.job in f.jobs
    ensures Inv(cfg, LetGo(Write(f, t.job, Finished(f.jobs[t.job].lease, Skipped)), t), now)
  {
    var jobs', hands' := Put(f.jobs, t.job, Finished(f.jobs[t.job].lease, Skipped)), f.hands - {t};
    forall j ensures QuietJob(f.jobs, jobs', j) {
      assert HandSound(f.jobs, f.hands, now, t);
    }
    forall u ensures QuietHand(f.hands, hands', u) && Untouched(f.jobs, jobs', hands', u) {
    }
    SameRulesSameShape(f.rules);
    Quietly(cfg, now, f, f.rules, jobs', hands');
  }

  /** Moving a task from one phase to another, neither of which has landed anything. */
  lemma PhaseKeepsHands(jobs: JobTable, hands: map<Task, Phase>, ledger: map<RowId, Ledger>, t: Task, p: Phase, now: Time)
    requires HandsSound(jobs, hands, now) && Exclusive(hands) && LedgerBalances(jobs, hands, ledger)
    requires t in hands && !LandedBy(hands, t) && !(p.Sent? && Landed(p.report))
    ensures HandsSound(jobs, hands[t := p], now) && Exclusive(hands[t := p]) && LedgerBalances(jobs, hands[t := p], ledger)
  {
    var hands' := hands[t := p];
    forall u ensures HandSound(jobs, hands', now, u) {
      assert HandSound(jobs, hands, now, u);
    }
    forall j, w, v ensures OneHolder(hands', j, w, v) {
      assert OneHolder(hands, j, w, v);
    }
    forall j ensures Balances(jobs, hands', ledger, j) {
      assert Balances(jobs, hands, ledger, j);
      SameLandings(hands, hands', j);
    }
  }

  lemma ArmKeeps(cfg: Config, now: Time, f: Forward, t: Task)
    requires Inv(cfg, f, now) && t in f.hands && f.hands[t].Loaded? && t.job in f.jobs && f.jobs[t.job].rule in f.rules
    ensures Inv(cfg, Armored(cfg, f, t), now)
  {
    var job := f.jobs[t.job];
    var copy := f.rules[job.rule].copy;
    var tokened := job.conn in cfg.userAccounts && !copy;
    var hands' := f.hands[t := Armed(tokened)];
    var copied' := if copy then f.copied + {job.rule} else f.copied;
    PhaseKeepsHands(f.jobs, f.hands, f.ledger, t, Armed(tokened), now);
    forall u ensures ArmedKnown(cfg, f.jobs, hands', copied', u) {
      assert ArmedKnown(cfg, f.jobs, f.hands, f.copied, u);
    }
    forall i | 0 <= i < |f.log| ensures CopyKnown(cfg, f.rules, copied', f.log[i]) {
      assert CopyKnown(cfg, f.rules, f.copied, f.log[i]);
    }
  }

  lemma NothingLandedYet(hands: map<Task, Phase>, t: Task)
    requires Exclusive(hands) && t in hands && !LandedBy(hands, t)
    ensures !InHandLanded(hands, t.job)
  {
    forall w ensures !LandedBy(hands, Task(w, t.job)) {
      assert OneHolder(hands, t.job, w, t.worker);
      assert t == Task(t.worker, t.job);
    }
  }

  lemma SendKeepsLedger(jobs: JobTable, hands: map<Task, Phase>, ledger: map<RowId, Ledger>, t: Task, report: Report, now: Time)
    requires HandsSound(jobs, hands, now) && Exclusive(hands) && LedgerBalances(jobs, hands, ledger)
    requires t in hands && hands[t].Armed? && t.job in jobs
    ensures HandsSound(jobs, hands[t := Sent(report)], now) && Exclusive(hands[t := Sent(report)])
    ensures LedgerBalances(jobs, hands[t := Sent(report)], Counted(ledger, t.job, report))
  {
    var hands' := hands[t := Sent(report)];
    var ledger' := Counted(ledger, t.job, report);
    forall u ensures HandSound(jobs, hands', now, u) {
      assert HandSound(jobs, hands, now, u);
    }
    forall j, w, v ensures OneHolder(hands', j, w, v) {
      assert OneHolder(hands, j, w, v);
    }
    forall j ensures Balances(jobs, hands', ledger', j) {
      assert Balances(jobs, hands, ledger, j) && HandSound(jobs, hands, now, t);
      if j == t.job {
        NothingLandedYet(hands, t);
        assert LandedBy(hands', Task(t.worker, j)) <==> Landed(report);
        if !Landed(report) {
          SameLandings(hands, hands', j);
        }
      } else {
        SameLandings(hands, hands', j);
      }
    }
  }

  lemma CountKeepsRetries(cfg: Config, rules: RuleTable, jobs: JobTable, ledger: map<RowId, Ledger>, ledger': map<RowId, Ledger>)
    requires RetriesBounded(cfg, rules, jobs, ledger)
    requires forall j :: j in ledger' ==> j in ledger && ledger'[j].failures == ledger[j].failures
    ensures RetriesBounded(cfg, rules, jobs, ledger')
  {
    forall j ensures RetryBounded(cfg, rules, jobs, ledger', j) {
      assert RetryBounded(cfg, rules, jobs, ledger, j);
    }
  }

  lemma SendKeepsLog(cfg: Config, rules: RuleTable, jobs: JobTable, hands: map<Task, Phase>, seen: set<(ConnId, int)>,
                     log: seq<Delivered>, t: Task, accepted: bool)
    requires RowsSound(cfg, rules, jobs) && LogSound(cfg, rules, seen, log)
    requires t in hands && hands[t].Armed? && t.job in jobs && jobs[t.job].ids != []
    requires accepted && hands[t].tokened ==> TokenIds(jobs[t.job]) !! seen
    ensures LogSound(cfg, rules, SeenAfter(seen, jobs[t.job], accepted && hands[t].tokened),
                     LogAfter(log, jobs[t.job], hands[t].tokened, accepted))
  {
    var job := jobs[t.job];
    var seen' := SeenAfter(seen, job, accepted && hands[t].tokened);
    var log' := LogAfter(log, job, hands[t].tokened, accepted);
    assert RowSound(cfg, rules, jobs, t.job);
    assert (job.conn, job.token) in TokenIds(job);
    forall i | 0 <= i < |log'| ensures Remembered(cfg, rules, seen', log'[i]) {
      if i < |log| {
        assert Remembered(cfg, rules, seen, log[i]);
      }
    }
    forall i, k | 0 <= i < k < |log'| && log'[i].tokened && log'[k].tokened ensures log'[i].route != log'[k].route {
      assert Remembered(cfg, rules, seen, log[i]);
    }
  }

  lemma SendKeepsCopies(cfg: Config, rules: RuleTable, jobs: JobTable, hands: map<Task, Phase>, log: seq<Delivered>,
                        copied: set<string>, t: Task, accepted: bool, report: Report)
    requires RowsSound(cfg, rules, jobs) && CopiesKnown(cfg, rules, jobs, hands, log, copied)
    requires t in hands && hands[t].Armed? && t.job in jobs && jobs[t.job].ids != []
    ensures CopiesKnown(cfg, rules, jobs, hands[t := Sent(report)], LogAfter(log, jobs[t.job], hands[t].tokened, accepted), copied)
  {
    var hands', log' := hands[t := Sent(report)], LogAfter(log, jobs[t.job], hands[t].tokened, accepted);
    assert RowSound(cfg, rules, jobs, t.job) && ArmedKnown(cfg, jobs, hands, copied, t);
    forall u ensures ArmedKnown(cfg, jobs, hands', copied, u) {
      assert ArmedKnown(cfg, jobs, hands, copied, u);
    }
    forall i | 0 <= i < |log'| ensures CopyKnown(cfg, rules, copied, log'[i]) {
      if i < |log| {
        assert CopyKnown(cfg, rules, copied, log[i]);
      }
    }
  }

  lemma SendKeeps(cfg: Config, now: Time, f: Forward, t: Task, accepted: bool, report: Report)
    requires Inv(cfg, f, now) && t in f.hands && f.hands[t].Armed? && t.job in f.jobs && f.jobs[t.job].ids != []
    requires accepted && f.hands[t].tokened ==> TokenIds(f.jobs[t.job]) !! f.seen
    ensures Inv(cfg, Transmit(f, t, accepted, report), now)
  {
    SendKeepsLedger(f.jobs, f.hands, f.ledger, t, report, now);
    CountKeepsRetries(cfg, f.rules, f.jobs, f.ledger, Counted(f.ledger, t.job, report));
    SendKeepsLog(cfg, f.rules, f.jobs, f.hands, f.seen, f.log, t, accepted);
    SendKeepsCopies(cfg, f.rules, f.jobs, f.hands, f.log, f.copied, t, accepted, report);
  }

  /** Dropping a task: what it had landed, if anything, must be written down elsewhere. */
  lemma DropKeepsHands(jobs: JobTable, hands: map<Task, Phase>, t: Task, now: Time)
    requires HandsSound(jobs, hands, now) && Exclusive(hands) && t in hands
    ensures HandsSound(jobs, hands - {t}, now) && Exclusive(hands - {t}) && !InHandLanded(hands - {t}, t.job)
    ensures forall j :: j != t.job ==> (InHandLanded(hands - {t}, j) <==> InHandLanded(hands, j))
  {
    var hands' := hands - {t};
    forall u ensures HandSound(jobs, hands', now, u) {
      assert HandSound(jobs, hands, now, u);
    }
    forall j, w, v ensures OneHolder(hands', j, w, v) {
      assert OneHolder(hands, j, w, v);
    }
    forall w ensures !LandedBy(hands', Task(w, t.job)) {
      assert OneHolder(hands, t.job, w, t.worker) && t == Task(t.worker, t.job);
    }
    forall j | j != t.job ensures InHandLanded(hands', j) <==> InHandLanded(hands, j) {
      SameLandings(hands, hands', j);
    }
  }

  lemma CrashKeeps(cfg: Config, now: Time, f: Forward, t: Task)
    requires Inv(cfg, f, now) && t in f.hands && t.job in f.ledger
    ensures Inv(cfg, LetGo(if LandedBy(f.hands, t) then Forget(f, t.job) else f, t), now)
  {
    var hands', ledger' := f.hands - {t}, if LandedBy(f.hands, t) then Forget(f, t.job).ledger else f.ledger;
    DropKeepsHands(f.jobs, f.hands, t, now);
    forall j ensures Balances(f.jobs, hands', ledger', j) {
      assert Balances(f.jobs, f.hands, f.ledger, j) && HandSound(f.jobs, f.hands, now, t);
      assert t == Task(t.worker, t.job);
      if j == t.job && !LandedBy(f.hands, t) {
        NothingLandedYet(f.hands, t);
      }
    }
    CountKeepsRetries(cfg, f.rules, f.jobs, f.ledger, ledger');
    forall u ensures ArmedKnown(cfg, f.jobs, hands', f.copied, u) {
      assert ArmedKnown(cfg, f.jobs, f.hands, f.copied, u);
    }
  }

  /** What a commit may write into the row: a final status that says exactly whether something
      landed, or another try within the retry bound. */
  ghost predicate Committable(cfg: Config, rules: RuleTable, job: Job, failures: nat, report: Report, l: Lease) {
    && Tidy(l) && l.status != Leased && l.attempts >= job.lease.attempts
    && (Landed(report) <==> l.status == Succeeded || l.status == NeedsAttention)
    && (if IsRetryFailure(report) then
          l.status == DeadLetter
          || (job.rule in rules ==> l.attempts == job.lease.attempts + 1 && l.attempts < Cap(cfg, rules[job.rule]))
        else l.status != DeadLetter)
  }

  lemma CommitKeepsLedger(jobs: JobTable, hands: map<Task, Phase>, ledger: map<RowId, Ledger>, t: Task, l: Lease, now: Time,
                          ledger': map<RowId, Ledger>)
    requires HandsSound(jobs, hands, now) && Exclusive(hands) && LedgerBalances(jobs, hands, ledger)
    requires t in hands && hands[t].Sent? && t.job in jobs && t.job in ledger
    requires Landed(hands[t].report) <==> l.status == Succeeded || l.status == NeedsAttention
    requires forall j :: j in ledger' <==> j in ledger
    requires forall j :: j in ledger' ==> ledger'[j] == ledger[j].(failures := ledger'[j].failures)
    ensures HandsSound(Put(jobs, t.job, l), hands - {t}, now) && Exclusive(hands - {t})
    ensures LedgerBalances(Put(jobs, t.job, l), hands - {t}, ledger')
  {
    var jobs', hands' := Put(jobs, t.job, l), hands - {t};
    DropKeepsHands(jobs, hands, t, now);
    forall u ensures HandSound(jobs', hands', now, u) {
      assert HandSound(jobs, hands, now, u) && OneHolder(hands, t.job, u.worker, t.worker);
      assert t == Task(t.worker, t.job) && u == Task(u.worker, u.job);
    }
    forall j ensures Balances(jobs', hands', ledger', j) {
      assert Balances(jobs, hands, ledger, j) && HandSound(jobs, hands, now, t);
      assert t == Task(t.worker, t.job);
      if j == t.job && !LandedBy(hands, t) {
        NothingLandedYet(hands, t);
      }
    }
  }

  lemma CommitKeepsRetries(cfg: Config, rules: RuleTable, jobs: JobTable, hands: map<Task, Phase>, ledger: map<RowId, Ledger>,
                           t: Task, l: Lease, now: Time, report: Report)
    requires RetriesBounded(cfg, rules, jobs, ledger) && HandsSound(jobs, hands, now)
    requires t in hands && t.job in jobs && t.job in ledger && jobs[t.job].rule in rules
    requires Committable(cfg, rules, jobs[t.job], ledger[t.job].failures, report, l)
    ensures RetriesBounded(cfg, rules, Put(jobs, t.job, l), Charged(ledger, t.job, report))
  {
    var jobs', ledger' := Put(jobs, t.job, l), Charged(ledger, t.job, report);
    forall j ensures RetryBounded(cfg, rules, jobs', ledger', j) {
      assert RetryBounded(cfg, rules, jobs, ledger, j) && HandSound(jobs, hands, now, t);
    }
  }

  lemma SettleKeeps(cfg: Config, now: Time, f: Forward, t: Task, l: Lease, pausesRule: bool)
    requires Inv(cfg, f, now) && t in f.hands && f.hands[t].Sent? && t.job in f.jobs && t.job in f.ledger
    requires f.jobs[t.job].rule in f.rules
    requires Committable(cfg, f.rules, f.jobs[t.job], f.ledger[t.job].failures, f.hands[t].report, l)
    ensures Inv(cfg, Settle(f, t, l, pausesRule), now)
  {
    var report := f.hands[t].report;
    var jobs', hands', ledger' := Put(f.jobs, t.job, l), f.hands - {t}, Charged(f.ledger, t.job, report);
    CommitKeepsLedger(f.jobs, f.hands, f.ledger, t, l, now, ledger');
    CommitKeepsRetries(cfg, f.rules, f.jobs, f.hands, f.ledger, t, l, now, report);
    WriteKeepsRows(cfg, f.rules, f.jobs, t.job, l);
    WriteKeepsCeiling(cfg, f.jobs, t.job, l);
    WriteKeepsCopies(cfg, f.rules, f.jobs, f.hands, f.log, f.copied, t.job, l);
    forall u ensures ArmedKnown(cfg, jobs', hands', f.copied, u) {
      assert ArmedKnown(cfg, jobs', f.hands, f.copied, u);
    }
    var g := f.(jobs := jobs', hands := hands', ledger := ledger');
    if pausesRule {
      var r := f.jobs[t.job].rule;
      RuleKeeps(cfg, now, g, r, f.rules[r].(status := RulePaused));
    }
  }

  /** Whatever the taxonomy decides is something a commit may write. */
  lemma DecisionIsCommittable(cfg: Config, rules: RuleTable, job: Job, failures: nat, report: Report, backoff: Time, now: Time)
    requires job.rule in rules && Tidy(job.lease)
    ensures Committable(cfg, rules, job, failures, report,
      Applied(job.lease, Decide(report, job.lease.attempts, Cap(cfg, rules[job.rule]), cfg.settings.floodPause, backoff).verdict, now))
  {
  }

  lemma CommitKeeps(cfg: Config, now: Time, f: Forward, t: Task, backoff: Time, threshold: bool)
    requires Inv(cfg, f, now) && t in f.hands && f.hands[t].Sent? && t.job in f.jobs && t.job in f.ledger
    requires f.jobs[t.job].rule in f.rules
    ensures var d := DecisionFor(cfg, f, t, backoff);
      var job := f.jobs[t.job];
      var rest := if d.pausesConnection then Withdrawn(f, job.conn) else f;
      Inv(cfg, Settle(rest, t, Applied(job.lease, d.verdict, now), d.pausesOwner || (d.strike && threshold)), now)
  {
    var d := DecisionFor(cfg, f, t, backoff);
    var job := f.jobs[t.job];
    assert RowSound(cfg, f.rules, f.jobs, t.job);
    DecisionIsCommittable(cfg, f.rules, job, f.ledger[t.job].failures, f.hands[t].report, backoff, now);
    var l := Applied(job.lease, d.verdict, now);
    if d.pausesConnection {
      WithdrawKeeps(cfg, now, f, job.conn);
      SettleKeeps(cfg, now, Withdrawn(f, job.conn), t, l, d.pausesOwner || (d.strike && threshold));
    } else {
      SettleKeeps(cfg, now, f, t, l, d.pausesOwner || (d.strike && threshold));
    }
  }

  // ------------------------------------------------------------------------
  // Manual requeue
  // ------------------------------------------------------------------------

  lemma RequeueKeepsTables(cfg: Config, f: Forward, r: string, now: Time)
    requires Inv(cfg, f, now)
    ensures var g := Retried(f, r, now);
      && RowsSound(cfg, g.rules, g.jobs) && KeysUnique(g.jobs)
      && HandsSound(g.jobs, g.hands, now) && CeilingKept(cfg, g.jobs)
      && CopiesKnown(cfg, g.rules, g.jobs, g.hands, g.log, g.copied)
  {
    var jobs' := RequeuedForRule(f.jobs, r, now);
    forall j ensures RowSound(cfg, f.rules, jobs', j) {
      assert RowSound(cfg, f.rules, f.jobs, j);
      assert j in f.jobs && f.jobs[j].ids != [] ==> jobs'[j].Route() == f.jobs[j].Route();
    }
    forall i, k ensures SameKeySameRow(jobs', i, k) {
      assert SameKeySameRow(f.jobs, i, k);
    }
    forall t ensures HandSound(jobs', f.hands, now, t) {
      assert HandSound(f.jobs, f.hands, now, t);
    }
    forall c ensures InFlight(jobs', c) <= cfg.settings.perConnectionInflight {
      assert LeasedOn(jobs', c) == LeasedOn(f.jobs, c);
      assert InFlight(f.jobs, c) <= cfg.settings.perConnectionInflight;
    }
    forall t ensures ArmedKnown(cfg, jobs', f.hands, f.copied, t) {
      assert ArmedKnown(cfg, f.jobs, f.hands, f.copied, t);
    }
  }

  lemma RequeueKeeps(cfg: Config, f: Forward, r: string, now: Time)
    requires Inv(cfg, f, now)
    ensures Inv(cfg, Retried(f, r, now), now)
  {
    var g := Retried(f, r, now);
    RequeueKeepsTables(cfg, f, r, now);
    forall j ensures Balances(g.jobs, g.hands, g.ledger, j) && RetryBounded(cfg, g.rules, g.jobs, g.ledger, j) {
      assert Balances(f.jobs, f.hands, f.ledger, j) && RetryBounded(cfg, f.rules, f.jobs, f.ledger, j);
      assert RowSound(cfg, f.rules, f.jobs, j);
      if InHandLanded(f.hands, j) {
        var w :| LandedBy(f.hands, Task(w, j));
        assert HandSound(f.jobs, f.hands, now, Task(w, j));
      }
    }
  }

  // ------------------------------------------------------------------------
  // Every action, and time
  // ------------------------------------------------------------------------

  lemma StepKeeps(cfg: Config, now: Time, f: Forward, a: Action)
    requires Inv(cfg, f, now) && Enabled(cfg, now, f, a) && cfg.settings.leaseTime >= 0
    ensures Inv(cfg, Apply(cfg, now, f, a), now)
  {
    match a
    case Dispatch(r, source, ids, eligible, newIds) => DispatchKeeps(cfg, now, f, r, source, ids, eligible, newIds);
    case Claim(w, batch, capacity) => ClaimKeeps(cfg, now, f, w, batch, capacity);
    case Heartbeat(t) => HeartbeatKeeps(cfg, now, f, t);
    case Load(t, active) => LoadKeeps(cfg, now, f, t, active);
    case Arm(t) => ArmKeeps(cfg, now, f, t);
    case Refuse(t) => RefuseKeeps(cfg, now, f, t);
    case Send(t, accepted, report) => SendKeeps(cfg, now, f, t, accepted, report);
    case Commit(t, backoff, threshold) => CommitKeeps(cfg, now, f, t, backoff, threshold);
    case Crash(t) => CrashKeeps(cfg, now, f, t);
    case Reclaim(rows) => ReclaimKeeps(cfg, now, f, rows);
    case CreateRule(r, value) => RuleKeeps(cfg, now, f, r, value);
    case EditRule(r, value) => RuleKeeps(cfg, now, f, r, value);
    case PauseRule(r) => PauseRuleKeeps(cfg, now, f, r);
    case Requeue(r) => RequeueKeeps(cfg, f, r, now);
    case Withdraw(c) => WithdrawKeeps(cfg, now, f, c);
  }

  lemma PauseRuleKeeps(cfg: Config, now: Time, f: Forward, r: string)
    requires Inv(cfg, f, now) && r in f.rules
    ensures Inv(cfg, f.(rules := f.rules[r := f.rules[r].(status := RulePaused)], jobs := CancelledForRule(f.jobs, r)), now)
  {
    var rules' := f.rules[r := f.rules[r].(status := RulePaused)];
    forall k ensures ShapeOf(f.rules, rules', k) {
    }
    CancelKeeps(cfg, now, f, (j: Job) => j.rule == r, rules');
  }

  lemma TimeKeeps(cfg: Config, now: Time, later: Time, f: Forward)
    requires Inv(cfg, f, now) && now <= later && HeartbeatsKept(f, later)
    ensures Inv(cfg, f, later)
  {
    forall t ensures HandSound(f.jobs, f.hands, later, t) {
      assert HandSound(f.jobs, f.hands, now, t);
    }
  }

  lemma EmptyKeeps(cfg: Config, now: Time)
    ensures Inv(cfg, EMPTY, now)
  {
    forall c ensures InFlight(EMPTY.jobs, c) == 0 {
      assert LeasedOn(EMPTY.jobs, c) == {};
    }
    forall j ensures RowSound(cfg, EMPTY.rules, EMPTY.jobs, j) && Balances(EMPTY.jobs, EMPTY.hands, EMPTY.ledger, j)
                  && RetryBounded(cfg, EMPTY.rules, EMPTY.jobs, EMPTY.ledger, j) {
    }
    forall i, j ensures SameKeySameRow(EMPTY.jobs, i, j) {
    }
    forall t ensures HandSound(EMPTY.jobs, EMPTY.hands, now, t) && ArmedKnown(cfg, EMPTY.jobs, EMPTY.hands, EMPTY.copied, t) {
    }
    forall j, w, v ensures OneHolder(EMPTY.hands, j, w, v) {
    }
  }
}
