/** Pausing a connection, or cancelling an ad, stops its work, and nothing automatic brings it back. */
module Cascade {
  import opened Types
  import opened Leases
  import opened Delivery
  import opened System
  import F = Forwarding
  import B = Broadcasting
  import BS = BroadcastingSafety
  import FS = ForwardingSafety
  import J = Jobs
  import T = Broadcasts

  // ------------------------------------------------------------------------
  // Forwarding
  // ------------------------------------------------------------------------

  ghost predicate JobQuiet(jobs: J.JobTable, c: ConnId, j: RowId) {
    j in jobs && jobs[j].conn == c ==> !Unstarted(jobs[j].lease)
  }

  /** No forwarding job is waiting or leased on the connection. */
  ghost predicate JobsQuiet(jobs: J.JobTable, c: ConnId) {
    forall j :: JobQuiet(jobs, c, j)
  }

  ghost predicate RuleQuiet(rules: J.RuleTable, c: ConnId, r: string) {
    r in rules && rules[r].conn == c ==> rules[r].status != J.RuleActive
  }

  /** No rule is active on the connection. */
  ghost predicate RulesQuiet(rules: J.RuleTable, c: ConnId) {
    forall r :: RuleQuiet(rules, c, r)
  }

  /** The one way back: a worker that had the job in hand commits a report that asks for another try. */
  ghost predicate JobRevives(cfg: F.Config, now: Time, f: F.Forward, a: F.Action, c: ConnId)
    requires F.Enabled(cfg, now, f, a)
  {
    a.Commit? && f.jobs[a.task.job].conn == c && F.DecisionFor(cfg, f, a.task, a.backoff).verdict.Again?
  }

  lemma DispatchQuiet(cfg: F.Config, now: Time, f: F.Forward, a: F.Action, c: ConnId)
    requires F.Inv(cfg, f, now) && F.Enabled(cfg, now, f, a) && a.Dispatch?
    requires JobsQuiet(f.jobs, c) && RulesQuiet(f.rules, c)
    ensures JobsQuiet(F.Apply(cfg, now, f, a).jobs, c)
  {
    var jobs' := F.Apply(cfg, now, f, a).jobs;
    FS.DispatchedAdds(cfg.keys, f.jobs, a.rule, f.rules[a.rule], a.source, a.ids, a.eligible, a.newIds, now, |a.newIds|);
    assert RuleQuiet(f.rules, c, a.rule);
    forall j ensures JobQuiet(jobs', c, j) {
      assert JobQuiet(f.jobs, c, j);
    }
  }

  /** A verdict either asks for another try or ends the work on the row. */
  lemma VerdictEnds(r: Report, attempts: nat, maxAttempts: nat, floodPause: Time, backoff: Time, l: Lease, now: Time)
    ensures var v := Decide(r, attempts, maxAttempts, floodPause, backoff).verdict;
      Unstarted(Applied(l, v, now)) <==> v.Again?
  {
  }

  lemma WrittenJobQuiet(jobs: J.JobTable, c: ConnId, j: RowId, l: Lease)
    requires JobsQuiet(jobs, c) && j in jobs
    ensures JobsQuiet(J.Put(jobs, j, l), c) <==> !(jobs[j].conn == c && Unstarted(l))
  {
    var jobs' := J.Put(jobs, j, l);
    assert jobs'[j].conn == jobs[j].conn && jobs'[j].lease == l;
    if jobs[j].conn == c && Unstarted(l) {
      assert !JobQuiet(jobs', c, j);
    } else {
      forall k ensures JobQuiet(jobs', c, k) {
        assert JobQuiet(jobs, c, k);
      }
    }
  }

  lemma WithdrawnJobsQuiet(jobs: J.JobTable, k: ConnId, c: ConnId)
    requires JobsQuiet(jobs, c) || k == c
    ensures JobsQuiet(J.CancelledForConnection(jobs, k), c)
  {
    forall j ensures JobQuiet(J.CancelledForConnection(jobs, k), c, j) {
      assert k == c || JobQuiet(jobs, c, j);
    }
  }

  lemma CommitQuiet(cfg: F.Config, now: Time, f: F.Forward, a: F.Action, c: ConnId)
    requires F.Enabled(cfg, now, f, a) && a.Commit? && (JobsQuiet(f.jobs, c) || JobPauses(f, a, c))
    ensures JobsQuiet(F.Apply(cfg, now, f, a).jobs, c) <==> !JobRevives(cfg, now, f, a, c)
  {
    var job := f.jobs[a.task.job];
    var d := F.DecisionFor(cfg, f, a.task, a.backoff);
    VerdictEnds(f.hands[a.task].report, job.lease.attempts, F.Cap(cfg, f.rules[job.rule]), cfg.settings.floodPause,
                a.backoff, job.lease, now);
    var l := Applied(job.lease, d.verdict, now);
    if d.pausesConnection {
      WithdrawnJobsQuiet(f.jobs, job.conn, c);
      WrittenJobQuiet(J.CancelledForConnection(f.jobs, job.conn), c, a.task.job, l);
    } else {
      WrittenJobQuiet(f.jobs, c, a.task.job, l);
    }
  }

  /** From a quiet connection, an automatic step recreates work exactly when it is such a commit. */
  lemma JobsStayQuiet(cfg: F.Config, now: Time, f: F.Forward, a: F.Action, c: ConnId)
    requires F.Inv(cfg, f, now) && F.Enabled(cfg, now, f, a) && !F.ByCustomer(a)
    requires JobsQuiet(f.jobs, c) && RulesQuiet(f.rules, c)
    ensures JobsQuiet(F.Apply(cfg, now, f, a).jobs, c) <==> !JobRevives(cfg, now, f, a, c)
  {
    if a.Dispatch? {
      DispatchQuiet(cfg, now, f, a, c);
    } else if a.Commit? {
      CommitQuiet(cfg, now, f, a, c);
    } else {
      var jobs' := F.Apply(cfg, now, f, a).jobs;
      forall j ensures JobQuiet(jobs', c, j) {
        assert JobQuiet(f.jobs, c, j);
        assert F.RowSound(cfg, f.rules, f.jobs, j);
        if a.Refuse? || a.Heartbeat? {
          assert JobQuiet(f.jobs, c, a.task.job);
        }
      }
    }
  }

  /** Rules are only ever activated by the customer. */
  lemma RulesStayQuiet(cfg: F.Config, now: Time, f: F.Forward, a: F.Action, c: ConnId)
    requires F.Enabled(cfg, now, f, a) && !F.ByCustomer(a) && RulesQuiet(f.rules, c)
    ensures RulesQuiet(F.Apply(cfg, now, f, a).rules, c)
  {
    var rules' := F.Apply(cfg, now, f, a).rules;
    forall r ensures RuleQuiet(rules', c, r) {
      assert RuleQuiet(f.rules, c, r);
    }
  }

  // ------------------------------------------------------------------------
  // Broadcasts
  // ------------------------------------------------------------------------

  ghost predicate TargetQuiet(targets: T.TargetTable, b: RowId, r: RowId) {
    r in targets && targets[r].ad == b ==> !Unstarted(targets[r].lease)
  }

  /** No target of the ad is waiting or leased. */
  ghost predicate AdQuiet(targets: T.TargetTable, b: RowId) {
    forall r :: TargetQuiet(targets, b, r)
  }

  /** The ways back for one ad: a worker that had a target in hand commits a report that asks for
      another try, or settles the round of a repeating ad. */
  ghost predicate AdRevives(settings: Settings, now: Time, s: B.Board, a: B.Action, b: RowId)
    requires B.Enabled(settings, now, s, a)
  {
    match a
    case Commit(t, backoff, seen) =>
      && s.targets[t.target].ad == b
      && var d := B.DecisionFor(settings, s, t, backoff);
         || d.verdict.Again?
         || (B.Settles(s.hands[t].report, d) && B.Reopens(B.Written(settings, s, t, backoff, now), b, seen))
    case Refuse(t, seen) => s.targets[t.target].ad == b && B.Reopens(B.Skip(s, t), b, seen)
    case _ => false
  }

  lemma ReopenRevives(s: B.Board, b: RowId, start: Time, r: RowId)
    requires b in s.ads && r in s.targets && s.targets[r].ad == b
    ensures !AdQuiet(B.Reopen(s, b, start).targets, b)
  {
    assert !TargetQuiet(B.Reopen(s, b, start).targets, b, r);
  }

  lemma SettleQuiet(s: B.Board, k: RowId, seen: bool, now: Time, b: RowId, r: RowId)
    requires k in s.ads && r in s.targets && s.targets[r].ad == k && AdQuiet(s.targets, b)
    ensures AdQuiet(B.Settled(s, k, seen, now).targets, b) <==> !(k == b && B.Reopens(s, k, seen))
  {
    if B.Reopens(s, k, seen) {
      var ad := s.ads[k].(rounds := s.ads[k].rounds + 1);
      var s1 := B.SetAd(s, k, ad).(notified :=
        if T.RowsOf(s.targets, k) == {} then s.notified else s.notified + [(k, ad.rounds)]);
      var start := now + ad.repeat.value * SECOND;
      if k == b {
        ReopenRevives(s1, b, start, r);
      } else {
        forall u ensures TargetQuiet(B.Reopen(s1, k, start).targets, b, u) {
          assert TargetQuiet(s.targets, b, u);
        }
      }
    }
  }

  lemma PutTargetQuiet(targets: T.TargetTable, b: RowId, r: RowId, l: Lease)
    requires AdQuiet(targets, b) && r in targets
    ensures AdQuiet(T.Put(targets, r, l), b) <==> !(targets[r].ad == b && Unstarted(l))
  {
    var targets' := T.Put(targets, r, l);
    assert targets'[r].ad == targets[r].ad && targets'[r].lease == l;
    if targets[r].ad == b && Unstarted(l) {
      assert !TargetQuiet(targets', b, r);
    } else {
      forall u ensures TargetQuiet(targets', b, u) {
        assert TargetQuiet(targets, b, u);
      }
    }
  }

  lemma WithdrawnTargetsQuiet(ads: T.AdTable, targets: T.TargetTable, c: ConnId, b: RowId)
    requires AdQuiet(targets, b) || (b in ads && ads[b].conn == c)
    ensures AdQuiet(T.CancelledForConnection(ads, targets, c), b)
  {
    forall r ensures TargetQuiet(T.CancelledForConnection(ads, targets, c), b, r) {
      assert (b in ads && ads[b].conn == c) || TargetQuiet(targets, b, r);
    }
  }

  lemma WrittenQuiet(settings: Settings, s: B.Board, t: B.Task, backoff: Time, now: Time, b: RowId)
    requires t in s.hands && s.hands[t].Sent? && t.target in s.targets && t.target in s.tally
    requires s.targets[t.target].ad in s.ads
    requires AdQuiet(s.targets, b)
      || (Unauthorized(s.hands[t].report) && AdOnConn(s, b, s.ads[s.targets[t.target].ad].conn))
    ensures AdQuiet(B.Written(settings, s, t, backoff, now).targets, b)
       <==> !(s.targets[t.target].ad == b && B.DecisionFor(settings, s, t, backoff).verdict.Again?)
  {
    var row := s.targets[t.target];
    var d := B.DecisionFor(settings, s, t, backoff);
    var l := Applied(row.lease, d.verdict, now);
    VerdictEnds(s.hands[t].report, row.lease.attempts, settings.maxAttempts, settings.floodPause, backoff, row.lease, now);
    if d.pausesConnection {
      var c := s.ads[row.ad].conn;
      WithdrawnTargetsQuiet(s.ads, s.targets, c, b);
      PutTargetQuiet(T.CancelledForConnection(s.ads, s.targets, c), b, t.target, l);
    } else {
      PutTargetQuiet(s.targets, b, t.target, l);
    }
  }

  lemma CommitAdQuiet(settings: Settings, now: Time, s: B.Board, a: B.Action, b: RowId)
    requires B.Enabled(settings, now, s, a) && a.Commit? && AdQuiet(s.targets, b)
    ensures AdQuiet(B.Apply(settings, now, s, a).targets, b) <==> !AdRevives(settings, now, s, a, b)
  {
    var t := a.task;
    var d := B.DecisionFor(settings, s, t, a.backoff);
    WrittenQuiet(settings, s, t, a.backoff, now, b);
    if B.Settles(s.hands[t].report, d) {
      SettleQuiet(B.Written(settings, s, t, a.backoff, now), s.targets[t.target].ad, a.seen, now, b, t.target);
    }
  }

  lemma RefuseAdQuiet(settings: Settings, now: Time, s: B.Board, a: B.Action, b: RowId)
    requires B.Enabled(settings, now, s, a) && a.Refuse? && AdQuiet(s.targets, b)
    ensures AdQuiet(B.Apply(settings, now, s, a).targets, b) <==> !AdRevives(settings, now, s, a, b)
  {
    var t := a.task;
    forall r ensures TargetQuiet(B.Skip(s, t).targets, b, r) {
      assert TargetQuiet(s.targets, b, r);
    }
    SettleQuiet(B.Skip(s, t), s.targets[t.target].ad, a.seen, now, b, t.target);
  }

  /** From a quiet ad, an automatic step recreates work exactly in those ways. */
  lemma AdStaysQuiet(settings: Settings, now: Time, s: B.Board, a: B.Action, b: RowId)
    requires B.Inv(settings, s, now) && B.Enabled(settings, now, s, a) && !B.ByCustomer(a) && AdQuiet(s.targets, b)
    ensures AdQuiet(B.Apply(settings, now, s, a).targets, b) <==> !AdRevives(settings, now, s, a, b)
  {
    if a.Commit? {
      CommitAdQuiet(settings, now, s, a, b);
    } else if a.Refuse? {
      RefuseAdQuiet(settings, now, s, a, b);
    } else {
      var targets' := B.Apply(settings, now, s, a).targets;
      forall r ensures TargetQuiet(targets', b, r) {
        assert TargetQuiet(s.targets, b, r);
        if a.Heartbeat? {
          assert TargetQuiet(s.targets, b, a.task.target);
        }
      }
    }
  }

  // ------------------------------------------------------------------------
  // A paused connection
  // ------------------------------------------------------------------------

  ghost predicate QuietOn(b: B.Board, c: ConnId, k: RowId) {
    AdOnConn(b, k, c) ==> AdQuiet(b.targets, k)
  }

  ghost predicate AdsQuiet(b: B.Board, c: ConnId) {
    forall k :: QuietOn(b, c, k)
  }

  /** No rule on the connection is active, and nothing on it is waiting or leased. */
  ghost predicate Quiet(s: State, c: ConnId) {
    && JobsQuiet(s.f.jobs, c) && RulesQuiet(s.f.rules, c) && AdsQuiet(s.b, c)
  }

  ghost predicate AdRevivesOn(settings: Settings, now: Time, b: B.Board, a: B.Action, c: ConnId)
    requires B.Enabled(settings, now, b, a)
  {
    (a.Commit? || a.Refuse?) && a.task.target in b.targets
    && var k := b.targets[a.task.target].ad; AdOnConn(b, k, c) && AdRevives(settings, now, b, a, k)
  }

  /** A worker that already had work of the connection in hand brings some of it back. */
  ghost predicate Revives(cfg: F.Config, s: State, a: Step, c: ConnId)
    requires Enabled(cfg, s, a)
  {
    match a
    case JobStep(j) => JobRevives(cfg, s.now, s.f, j, c)
    case AdStep(x) => AdRevivesOn(cfg.settings, s.now, s.b, x, c)
    case _ => false
  }

  /** An automatic step moves no ad to another connection and adds none. */
  ghost predicate SameConns(b: B.Board, b': B.Board, k: RowId) {
    && (k in b'.ads <==> k in b.ads)
    && (k in b.ads ==> b'.ads[k].conn == b.ads[k].conn)
  }

  lemma SettledStaysPut(b: B.Board, ad: RowId, seen: bool, now: Time, k: RowId)
    requires ad in b.ads
    ensures SameConns(b, B.Settled(b, ad, seen, now), k)
  {
  }

  lemma WrittenStaysPut(settings: Settings, b: B.Board, t: B.Task, backoff: Time, now: Time, k: RowId)
    requires t in b.hands && b.hands[t].Sent? && t.target in b.targets && t.target in b.tally
    requires b.targets[t.target].ad in b.ads
    ensures SameConns(b, B.Written(settings, b, t, backoff, now), k)
  {
  }

  lemma AdsStayPut(settings: Settings, now: Time, b: B.Board, a: B.Action, k: RowId)
    requires B.Enabled(settings, now, b, a) && !B.ByCustomer(a)
    ensures SameConns(b, B.Apply(settings, now, b, a), k)
  {
    if a.Commit? {
      var w := B.Written(settings, b, a.task, a.backoff, now);
      WrittenStaysPut(settings, b, a.task, a.backoff, now, k);
      SettledStaysPut(w, b.targets[a.task.target].ad, a.seen, now, k);
    } else if a.Refuse? {
      SettledStaysPut(B.Skip(b, a.task), b.targets[a.task.target].ad, a.seen, now, k);
    }
  }

  lemma AdsStayQuiet(settings: Settings, now: Time, b: B.Board, a: B.Action, c: ConnId)
    requires B.Inv(settings, b, now) && B.Enabled(settings, now, b, a) && !B.ByCustomer(a) && AdsQuiet(b, c)
    ensures AdsQuiet(B.Apply(settings, now, b, a), c) <==> !AdRevivesOn(settings, now, b, a, c)
  {
    var b' := B.Apply(settings, now, b, a);
    if AdRevivesOn(settings, now, b, a, c) {
      var k := b.targets[a.task.target].ad;
      assert QuietOn(b, c, k);
      AdStaysQuiet(settings, now, b, a, k);
      AdsStayPut(settings, now, b, a, k);
      assert !QuietOn(b', c, k);
    } else {
      forall k ensures QuietOn(b', c, k) {
        assert QuietOn(b, c, k);
        AdsStayPut(settings, now, b, a, k);
        if AdOnConn(b, k, c) {
          AdStaysQuiet(settings, now, b, a, k);
        }
      }
    }
  }

  lemma WithdrawnAdsQuiet(b: B.Board, k: ConnId, reason: T.PauseReason, c: ConnId)
    requires AdsQuiet(b, c) || k == c
    ensures AdsQuiet(B.Withdrawn(b, k, reason), c)
  {
    forall ad ensures QuietOn(B.Withdrawn(b, k, reason), c, ad) {
      assert k == c || QuietOn(b, c, ad);
      if AdOnConn(b, ad, c) {
        WithdrawnTargetsQuiet(b.ads, b.targets, k, ad);
      }
    }
  }

  lemma WithdrawnRulesQuiet(f: F.Forward, k: ConnId, c: ConnId)
    requires RulesQuiet(f.rules, c) || k == c
    ensures RulesQuiet(F.Withdrawn(f, k).rules, c)
  {
    forall r ensures RuleQuiet(F.Withdrawn(f, k).rules, c, r) {
      assert k == c || RuleQuiet(f.rules, c, r);
    }
  }

  lemma JobStepQuiet(cfg: F.Config, s: State, j: F.Action, c: ConnId)
    requires Inv(cfg, s) && Enabled(cfg, s, JobStep(j)) && !F.ByCustomer(j) && Quiet(s, c)
    ensures Quiet(Next(cfg, s, JobStep(j)), c) <==> !JobRevives(cfg, s.now, s.f, j, c)
  {
    JobsStayQuiet(cfg, s.now, s.f, j, c);
    RulesStayQuiet(cfg, s.now, s.f, j, c);
    if j.Commit? {
      WithdrawnAdsQuiet(s.b, s.f.jobs[j.task.job].conn, T.ConnectionLost, c);
    }
  }

  lemma AdStepQuiet(cfg: F.Config, s: State, x: B.Action, c: ConnId)
    requires Inv(cfg, s) && Enabled(cfg, s, AdStep(x)) && !B.ByCustomer(x) && Quiet(s, c)
    ensures Quiet(Next(cfg, s, AdStep(x)), c) <==> !AdRevivesOn(cfg.settings, s.now, s.b, x, c)
  {
    AdsStayQuiet(cfg.settings, s.now, s.b, x, c);
    if x.Commit? {
      var k := s.b.ads[s.b.targets[x.task.target].ad].conn;
      WithdrawnJobsQuiet(s.f.jobs, k, c);
      WithdrawnRulesQuiet(s.f, k, c);
    }
  }

  /** The cascade holds: from a quiet connection, an automatic step leaves it quiet
      unless a worker that had its work in hand commits another try or settles a repeating round. */
  lemma CascadeHolds(cfg: F.Config, s: State, a: Step, c: ConnId)
    requires Inv(cfg, s) && Enabled(cfg, s, a) && Automatic(a) && Quiet(s, c)
    ensures Quiet(Next(cfg, s, a), c) <==> !Revives(cfg, s, a, c)
  {
    match a
    case JobStep(j) => JobStepQuiet(cfg, s, j, c);
    case AdStep(x) => AdStepQuiet(cfg, s, x, c);
    case _ =>
  }
}
