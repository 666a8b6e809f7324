/** Connections with nothing queued: when they stay so. */
module QuietConnections {
  import opened Types
  import opened Leases
  import opened Delivery
  import opened System
  import opened Cascade
  import opened PausedRuns
  import Rounds
  import F = Forwarding
  import FS = ForwardingSafety
  import B = Broadcasting
  import J = Jobs
  import T = Broadcasts

  // ------------------------------------------------------------------------
  // Workers that can do harm
  // ------------------------------------------------------------------------

  /** Committing the report queues the row again. */
  predicate Retries(r: Report, attempts: nat, maxAttempts: nat) {
    r.Refused? && (r.cls == RateLimit || (IsRetryFailure(r) && attempts + 1 < maxAttempts))
  }

  predicate JobOn(f: F.Forward, c: ConnId, t: F.Task) {
    t in f.hands && t.job in f.jobs && f.jobs[t.job].conn == c && f.jobs[t.job].rule in f.rules
  }

  /** A job is about to be sent, or its report asks for another try. */
  predicate JobHarm(cfg: F.Config, f: F.Forward, c: ConnId, t: F.Task) {
    JobOn(f, c, t)
    && (f.hands[t].Armed?
        || (f.hands[t].Sent?
            && Retries(f.hands[t].report, f.jobs[t.job].lease.attempts, F.Cap(cfg, f.rules[f.jobs[t.job].rule]))))
  }

  ghost predicate NoJobHarm(cfg: F.Config, f: F.Forward, c: ConnId) {
    forall t :: !JobHarm(cfg, f, c, t)
  }

  /** The connection is usable, or a health check can make it so. */
  predicate MayBeUsable(s: State, c: ConnId) {
    c in s.conns && (s.conns[c] == ConnActive || s.conns[c] == ConnError || c in s.checks)
  }

  /** The ad is sending, or the scheduler will start it. */
  predicate MaySend(ad: T.Ad) {
    ad.status == T.AdSending || (ad.status == T.AdScheduled && ad.scheduledFor.Some?)
  }

  predicate TargetOn(b: B.Board, c: ConnId, t: B.Task) {
    t in b.hands && t.target in b.targets && AdOnConn(b, b.targets[t.target].ad, c)
  }

  predicate EndsRound(r: Report) {
    !r.Ambiguous? && !Unauthorized(r)
  }

  predicate PhaseHarm(p: B.Phase, ad: T.Ad, usable: bool, attempts: nat, maxAttempts: nat) {
    match p
    case Held => MaySend(ad) && (usable || T.Repeats(ad))
    case Armed => true
    case Barred(wasSending) => T.Repeats(ad) && (wasSending || MaySend(ad))
    case Sent(r) => Retries(r, attempts, maxAttempts) || (T.Repeats(ad) && EndsRound(r))
  }

  /** A target is about to be posted or may yet be, its report asks for another try, or it may settle
      a round that repeats. */
  predicate TargetHarm(settings: Settings, b: B.Board, usable: bool, c: ConnId, t: B.Task) {
    TargetOn(b, c, t)
    && var row := b.targets[t.target];
       PhaseHarm(b.hands[t], b.ads[row.ad], usable, row.lease.attempts, settings.maxAttempts)
  }

  ghost predicate NoTargetHarm(settings: Settings, b: B.Board, usable: bool, c: ConnId) {
    forall t :: !TargetHarm(settings, b, usable, c, t)
  }

  /** No worker with work of the connection in hand can do harm. */
  ghost predicate NoHarm(cfg: F.Config, s: State, c: ConnId) {
    NoJobHarm(cfg, s.f, c) && NoTargetHarm(cfg.settings, s.b, MayBeUsable(s, c), c)
  }

  // ------------------------------------------------------------------------
  // Harmless work stays harmless: jobs
  // ------------------------------------------------------------------------

  /** A job in hand of a quiet connection was cancelled under its worker: while it stays in hand its
      row stays as it is. */
  lemma HeldJobStays(cfg: F.Config, now: Time, f: F.Forward, a: F.Action, t: F.Task)
    requires F.Inv(cfg, f, now) && F.Enabled(cfg, now, f, a) && !F.ByCustomer(a)
    requires t in f.hands && t.job in f.jobs && f.jobs[t.job].lease.status == Skipped
    requires t in F.Apply(cfg, now, f, a).hands
    ensures t.job in F.Apply(cfg, now, f, a).jobs && F.Apply(cfg, now, f, a).jobs[t.job] == f.jobs[t.job]
  {
    assert F.RowSound(cfg, f.rules, f.jobs, t.job);
    if a.Dispatch? {
      FS.DispatchedAdds(cfg.keys, f.jobs, a.rule, f.rules[a.rule], a.source, a.ids, a.eligible, a.newIds, now, |a.newIds|);
    } else if a.Refuse? || a.Commit? || a.Heartbeat? {
      assert F.OneHolder(f.hands, t.job, t.worker, a.task.worker);
      assert a.task == F.Task(a.task.worker, a.task.job) && t == F.Task(t.worker, t.job);
    }
  }

  lemma JobPhaseMoves(cfg: F.Config, now: Time, f: F.Forward, a: F.Action, t: F.Task)
    requires F.Enabled(cfg, now, f, a) && t in F.Apply(cfg, now, f, a).hands
    ensures var p := F.Apply(cfg, now, f, a).hands[t];
      || (t in f.hands && p == f.hands[t]) || p.Held? || p.Loaded?
      || (a == F.Arm(t) && p.Armed?) || (a.Send? && a.task == t)
  {
  }

  lemma RuleCapStays(cfg: F.Config, now: Time, f: F.Forward, a: F.Action, r: string)
    requires F.Enabled(cfg, now, f, a) && !F.ByCustomer(a)
    ensures r in F.Apply(cfg, now, f, a).rules <==> r in f.rules
    ensures r in f.rules ==> F.Apply(cfg, now, f, a).rules[r].maxAttempts == f.rules[r].maxAttempts
  {
  }

  lemma JobsStayHarmless(cfg: F.Config, now: Time, f: F.Forward, a: F.Action, c: ConnId)
    requires F.Inv(cfg, f, now) && F.Enabled(cfg, now, f, a) && !F.ByCustomer(a)
    requires JobsQuiet(f.jobs, c) && RulesQuiet(f.rules, c) && NoJobHarm(cfg, f, c)
    ensures NoJobHarm(cfg, F.Apply(cfg, now, f, a), c)
  {
    var f' := F.Apply(cfg, now, f, a);
    forall t ensures !JobHarm(cfg, f', c, t) {
      if JobHarm(cfg, f', c, t) {
        JobPhaseMoves(cfg, now, f, a, t);
        assert t in f.hands && F.HandSound(f.jobs, f.hands, now, t);
        JobsStayPut(cfg, now, f, a, t.job);
        assert JobQuiet(f.jobs, c, t.job) && F.RowSound(cfg, f.rules, f.jobs, t.job) && !JobHarm(cfg, f, c, t);
        assert RuleQuiet(f.rules, c, f.jobs[t.job].rule);
        HeldJobStays(cfg, now, f, a, t);
        RuleCapStays(cfg, now, f, a, f.jobs[t.job].rule);
      }
    }
  }

  // ------------------------------------------------------------------------
  // Harmless work stays harmless: targets
  // ------------------------------------------------------------------------

  lemma SettledFades(b: B.Board, ad: RowId, seen: bool, now: Time, k: RowId)
    requires ad in b.ads && k in b.ads
    ensures var ads' := B.Settled(b, ad, seen, now).ads;
      k in ads' && ads'[k].repeat == b.ads[k].repeat && (MaySend(ads'[k]) ==> MaySend(b.ads[k]))
  {
  }

  lemma NothingPending(targets: T.TargetTable, k: RowId)
    requires AdQuiet(targets, k)
    ensures T.PendingOf(targets, k) == {} && T.RemainingOf(targets, k) == {}
  {
    forall r ensures r !in T.RemainingOf(targets, k) {
      assert TargetQuiet(targets, k, r);
    }
    assert T.PendingOf(targets, k) <= T.RemainingOf(targets, k);
  }

  /** No automatic step makes a quiet ad one that may send, or changes whether it repeats. */
  lemma AdFades(settings: Settings, now: Time, b: B.Board, a: B.Action, k: RowId)
    requires B.Enabled(settings, now, b, a) && !B.ByCustomer(a) && k in b.ads && AdQuiet(b.targets, k)
    ensures var ads' := B.Apply(settings, now, b, a).ads;
      k in ads' && ads'[k].repeat == b.ads[k].repeat && (MaySend(ads'[k]) ==> MaySend(b.ads[k]))
  {
    if a.Commit? {
      var w := B.Written(settings, b, a.task, a.backoff, now);
      assert k in w.ads && w.ads[k].repeat == b.ads[k].repeat && (MaySend(w.ads[k]) ==> MaySend(b.ads[k]));
      SettledFades(w, b.targets[a.task.target].ad, a.seen, now, k);
    } else if a.Refuse? {
      SettledFades(B.Skip(b, a.task), b.targets[a.task.target].ad, a.seen, now, k);
    } else {
      NothingPending(b.targets, k);
    }
  }

  lemma TargetPhaseMoves(settings: Settings, now: Time, b: B.Board, a: B.Action, t: B.Task)
    requires B.Enabled(settings, now, b, a) && !B.ByCustomer(a) && t in B.Apply(settings, now, b, a).hands
    ensures var p := B.Apply(settings, now, b, a).hands[t];
      || (t in b.hands && p == b.hands[t])
      || (a.Claim? && p.Held? && t.target in b.targets && b.targets[t.target].lease.status == Pending)
      || (a.Load? && a.task == t && p == if a.passes then B.Armed else B.Barred(b.ads[b.targets[t.target].ad].status == T.AdSending))
      || (a.Send? && a.task == t)
  {
  }

  lemma SettledRowStays(b: B.Board, ad: RowId, seen: bool, now: Time, r: RowId)
    requires ad in b.ads && r in b.targets && AdQuiet(B.Settled(b, ad, seen, now).targets, b.targets[r].ad)
    ensures B.Settled(b, ad, seen, now).targets[r] == b.targets[r]
  {
    assert TargetQuiet(B.Settled(b, ad, seen, now).targets, b.targets[r].ad, r);
  }

  lemma HeldTargetStays(settings: Settings, now: Time, b: B.Board, a: B.Action, t: B.Task)
    requires B.Inv(settings, b, now) && B.Enabled(settings, now, b, a) && !B.ByCustomer(a)
    requires t in b.hands && t.target in b.targets && b.targets[t.target].lease.status == Skipped
    requires t in B.Apply(settings, now, b, a).hands
    requires AdQuiet(B.Apply(settings, now, b, a).targets, b.targets[t.target].ad)
    ensures t.target in B.Apply(settings, now, b, a).targets
    ensures B.Apply(settings, now, b, a).targets[t.target].ad == b.targets[t.target].ad
    ensures B.Apply(settings, now, b, a).targets[t.target].lease == b.targets[t.target].lease
  {
    TargetsStayPut(settings, now, b, a, t.target);
    assert B.RowSound(b.ads, b.targets, t.target);
    if a.Commit? || a.Refuse? || a.Heartbeat? {
      assert B.OneHolder(b.targets, b.hands, t.target, t.worker, a.task.worker);
      assert a.task == B.Task(a.task.worker, a.task.target) && t == B.Task(t.worker, t.target);
    }
    if a.Commit? {
      HeldThroughCommit(settings, now, b, a, t);
    } else if a.Refuse? {
      SettledRowStays(B.Skip(b, a.task), b.targets[a.task.target].ad, a.seen, now, t.target);
    }
  }

  lemma HeldThroughCommit(settings: Settings, now: Time, b: B.Board, a: B.Action, t: B.Task)
    requires B.Enabled(settings, now, b, a) && a.Commit? && t.target in b.targets && a.task.target != t.target
    requires b.targets[t.target].lease.status == Skipped
    requires AdQuiet(B.Apply(settings, now, b, a).targets, b.targets[t.target].ad)
    ensures B.Apply(settings, now, b, a).targets[t.target] == b.targets[t.target]
  {
    var w := B.Written(settings, b, a.task, a.backoff, now);
    assert w.targets[t.target] == b.targets[t.target];
    if B.Settles(b.hands[a.task].report, B.DecisionFor(settings, b, a.task, a.backoff)) {
      SettledRowStays(w, b.targets[a.task.target].ad, a.seen, now, t.target);
    }
  }

  /** Harm comes from the phase: with the ad faded, the same phase does no new harm. */
  lemma PhaseFades(p: B.Phase, ad: T.Ad, ad': T.Ad, usable: bool, attempts: nat, maxAttempts: nat)
    requires ad'.repeat == ad.repeat && (MaySend(ad') ==> MaySend(ad)) && PhaseHarm(p, ad', usable, attempts, maxAttempts)
    ensures PhaseHarm(p, ad, usable, attempts, maxAttempts)
  {
  }

  /** A worker that can do harm after the step could do so before. */
  lemma HarmIsOld(settings: Settings, now: Time, b: B.Board, a: B.Action, usable: bool, c: ConnId, t: B.Task)
    requires B.Enabled(settings, now, b, a) && !B.ByCustomer(a)
    requires t in b.hands && TargetHarm(settings, B.Apply(settings, now, b, a), usable, c, t)
    requires t.target in b.targets && B.Apply(settings, now, b, a).targets[t.target].ad == b.targets[t.target].ad
    requires B.Apply(settings, now, b, a).targets[t.target].lease == b.targets[t.target].lease
    requires AdQuiet(b.targets, b.targets[t.target].ad) && AdOnConn(b, b.targets[t.target].ad, c)
    requires a.Load? && a.passes && a.task == t ==> usable
    ensures TargetHarm(settings, b, usable, c, t)
  {
    var k, lease := b.targets[t.target].ad, b.targets[t.target].lease;
    var b' := B.Apply(settings, now, b, a);
    TargetPhaseMoves(settings, now, b, a, t);
    AdFades(settings, now, b, a, k);
    assert TargetQuiet(b.targets, k, t.target);
    if b'.hands[t] == b.hands[t] {
      PhaseFades(b.hands[t], b.ads[k], b'.ads[k], usable, lease.attempts, settings.maxAttempts);
    }
  }

  /** A target in hand of a quiet ad was cancelled under its worker. */
  lemma HeldIsSkipped(settings: Settings, now: Time, b: B.Board, k: RowId, t: B.Task)
    requires B.Inv(settings, b, now) && AdQuiet(b.targets, k)
    requires t in b.hands && t.target in b.targets && b.targets[t.target].ad == k
    ensures b.targets[t.target].lease.status == Skipped
  {
    assert TargetQuiet(b.targets, k, t.target) && B.HandSound(b.targets, b.hands, now, t);
  }

  /** A harmful worker's target was there before, of the same ad, which is quiet before and after. */
  lemma HarmIsKnown(settings: Settings, now: Time, b: B.Board, a: B.Action, usable: bool, c: ConnId, t: B.Task)
    requires B.Enabled(settings, now, b, a) && !B.ByCustomer(a)
    requires AdsQuiet(b, c) && AdsQuiet(B.Apply(settings, now, b, a), c)
    requires TargetHarm(settings, B.Apply(settings, now, b, a), usable, c, t)
    ensures t.target in b.targets && AdOnConn(b, b.targets[t.target].ad, c)
    ensures AdQuiet(b.targets, b.targets[t.target].ad) && AdQuiet(B.Apply(settings, now, b, a).targets, b.targets[t.target].ad)
  {
    TargetsStayPut(settings, now, b, a, t.target);
    var k := b.targets[t.target].ad;
    AdsStayPut(settings, now, b, a, k);
    assert QuietOn(b, c, k) && QuietOn(B.Apply(settings, now, b, a), c, k);
  }

  lemma HeldBefore(settings: Settings, now: Time, b: B.Board, a: B.Action, t: B.Task)
    requires B.Enabled(settings, now, b, a) && t in B.Apply(settings, now, b, a).hands
    requires t.target in b.targets && AdQuiet(b.targets, b.targets[t.target].ad)
    ensures t in b.hands
  {
    Rounds.HandsComeFromQueue(settings, now, b, a, t);
    assert TargetQuiet(b.targets, b.targets[t.target].ad, t.target);
  }

  lemma OneStaysHarmless(settings: Settings, now: Time, b: B.Board, a: B.Action, usable: bool, c: ConnId, t: B.Task)
    requires B.Inv(settings, b, now) && B.Enabled(settings, now, b, a) && !B.ByCustomer(a)
    requires AdsQuiet(b, c) && AdsQuiet(B.Apply(settings, now, b, a), c)
    requires a.Load? && a.passes && TargetOn(b, c, a.task) ==> usable
    requires TargetHarm(settings, B.Apply(settings, now, b, a), usable, c, t)
    ensures TargetHarm(settings, b, usable, c, t)
  {
    HarmIsKnown(settings, now, b, a, usable, c, t);
    HeldBefore(settings, now, b, a, t);
    HeldIsSkipped(settings, now, b, b.targets[t.target].ad, t);
    HeldTargetStays(settings, now, b, a, t);
    HarmIsOld(settings, now, b, a, usable, c, t);
  }

  lemma TargetsStayHarmless(settings: Settings, now: Time, b: B.Board, a: B.Action, usable: bool, c: ConnId)
    requires B.Inv(settings, b, now) && B.Enabled(settings, now, b, a) && !B.ByCustomer(a)
    requires AdsQuiet(b, c) && AdsQuiet(B.Apply(settings, now, b, a), c) && NoTargetHarm(settings, b, usable, c)
    requires a.Load? && a.passes && TargetOn(b, c, a.task) ==> usable
    ensures NoTargetHarm(settings, B.Apply(settings, now, b, a), usable, c)
  {
    var b' := B.Apply(settings, now, b, a);
    forall t ensures !TargetHarm(settings, b', usable, c, t) {
      assert !TargetHarm(settings, b, usable, c, t);
      if TargetHarm(settings, b', usable, c, t) {
        OneStaysHarmless(settings, now, b, a, usable, c, t);
      }
    }
  }

  // ------------------------------------------------------------------------
  // Without harm, nothing comes back
  // ------------------------------------------------------------------------

  lemma RetriesExactly(r: Report, attempts: nat, maxAttempts: nat, floodPause: Time, backoff: Time)
    ensures var d := Decide(r, attempts, maxAttempts, floodPause, backoff);
      && (d.verdict.Again? <==> Retries(r, attempts, maxAttempts))
      && (B.Settles(r, d) <==> !Retries(r, attempts, maxAttempts) && EndsRound(r))
  {
  }

  lemma HarmlessJobEnds(cfg: F.Config, now: Time, f: F.Forward, a: F.Action, c: ConnId)
    requires F.Inv(cfg, f, now) && F.Enabled(cfg, now, f, a) && NoJobHarm(cfg, f, c)
    ensures !JobRevives(cfg, now, f, a, c)
    ensures a.Send? ==> !ArmedJob(f, c, a.task)
  {
    if a.Commit? || a.Send? {
      assert !JobHarm(cfg, f, c, a.task) && F.RowSound(cfg, f.rules, f.jobs, a.task.job);
    }
  }

  lemma HarmlessTargetEnds(settings: Settings, now: Time, b: B.Board, a: B.Action, usable: bool, c: ConnId)
    requires B.Enabled(settings, now, b, a) && NoTargetHarm(settings, b, usable, c)
    ensures !AdRevivesOn(settings, now, b, a, c)
    ensures a.Send? ==> !ArmedTarget(b, c, a.task)
  {
    if a.Commit? || a.Send? || a.Refuse? {
      assert !TargetHarm(settings, b, usable, c, a.task);
    }
    if a.Commit? {
      var row := b.targets[a.task.target];
      RetriesExactly(b.hands[a.task].report, row.lease.attempts, settings.maxAttempts, settings.floodPause, a.backoff);
      SameRepeat(settings, now, b, a);
    }
  }

  lemma SameRepeat(settings: Settings, now: Time, b: B.Board, a: B.Action)
    requires B.Enabled(settings, now, b, a) && a.Commit?
    ensures var k := b.targets[a.task.target].ad;
      var ads' := B.Written(settings, b, a.task, a.backoff, now).ads;
      k in ads' && ads'[k].repeat == b.ads[k].repeat
  {
  }

  lemma HarmlessStepKeepsQuiet(cfg: F.Config, s: State, a: Step, c: ConnId)
    requires Inv(cfg, s) && Enabled(cfg, s, a) && Automatic(a) && Quiet(s, c) && NoHarm(cfg, s, c)
    ensures Quiet(Next(cfg, s, a), c) && !SendsOn(s, a, c)
  {
    CascadeHolds(cfg, s, a, c);
    match a
    case JobStep(x) => HarmlessJobEnds(cfg, s.now, s.f, x, c);
    case AdStep(x) => HarmlessTargetEnds(cfg.settings, s.now, s.b, x, MayBeUsable(s, c), c);
    case _ =>
  }

  lemma UsableFades(cfg: F.Config, s: State, a: Step, c: ConnId)
    requires Inv(cfg, s) && Enabled(cfg, s, a) && Automatic(a)
    ensures MayBeUsable(Next(cfg, s, a), c) ==> MayBeUsable(s, c)
  {
  }

  lemma WithdrawnHarmless(cfg: F.Config, f: F.Forward, b: B.Board, usable: bool, k: ConnId, c: ConnId)
    requires AdsQuiet(b, c) && NoJobHarm(cfg, f, c) && NoTargetHarm(cfg.settings, b, usable, c)
    ensures NoJobHarm(cfg, F.Withdrawn(f, k), c)
    ensures NoTargetHarm(cfg.settings, B.Withdrawn(b, k, T.ConnectionLost), usable, c)
  {
    forall t ensures !JobHarm(cfg, F.Withdrawn(f, k), c, t) {
      assert !JobHarm(cfg, f, c, t);
    }
    forall t ensures !TargetHarm(cfg.settings, B.Withdrawn(b, k, T.ConnectionLost), usable, c, t) {
      assert !TargetHarm(cfg.settings, b, usable, c, t);
    }
  }

  lemma LessUsable(settings: Settings, b: B.Board, more: bool, less: bool, c: ConnId)
    requires NoTargetHarm(settings, b, more, c) && (less ==> more)
    ensures NoTargetHarm(settings, b, less, c)
  {
    forall t ensures !TargetHarm(settings, b, less, c, t) {
      assert !TargetHarm(settings, b, more, c, t);
    }
  }

  lemma JobStepHarmless(cfg: F.Config, s: State, x: F.Action, usable: bool, c: ConnId)
    requires F.Inv(cfg, s.f, s.now) && Enabled(cfg, s, JobStep(x)) && !F.ByCustomer(x)
    requires Quiet(s, c) && NoJobHarm(cfg, s.f, c) && NoTargetHarm(cfg.settings, s.b, usable, c)
    ensures NoJobHarm(cfg, Next(cfg, s, JobStep(x)).f, c)
    ensures NoTargetHarm(cfg.settings, Next(cfg, s, JobStep(x)).b, usable, c)
  {
    JobsStayHarmless(cfg, s.now, s.f, x, c);
    if x.Commit? {
      WithdrawnHarmless(cfg, s.f, s.b, usable, s.f.jobs[x.task.job].conn, c);
    }
  }

  lemma AdStepHarmless(cfg: F.Config, s: State, x: B.Action, c: ConnId)
    requires B.Inv(cfg.settings, s.b, s.now) && Enabled(cfg, s, AdStep(x)) && !B.ByCustomer(x)
    requires Quiet(s, c) && NoHarm(cfg, s, c) && Quiet(Next(cfg, s, AdStep(x)), c)
    ensures NoJobHarm(cfg, Next(cfg, s, AdStep(x)).f, c)
    ensures NoTargetHarm(cfg.settings, Next(cfg, s, AdStep(x)).b, MayBeUsable(s, c), c)
  {
    var usable := MayBeUsable(s, c);
    TargetsStayHarmless(cfg.settings, s.now, s.b, x, usable, c);
    if x.Commit? {
      WithdrawnHarmless(cfg, s.f, s.b, usable, s.b.ads[s.b.targets[x.task.target].ad].conn, c);
    }
  }

  lemma HarmlessStays(cfg: F.Config, s: State, a: Step, c: ConnId)
    requires Inv(cfg, s) && Enabled(cfg, s, a) && Automatic(a) && Quiet(s, c) && NoHarm(cfg, s, c)
    requires Quiet(Next(cfg, s, a), c)
    ensures NoHarm(cfg, Next(cfg, s, a), c)
  {
    var s', usable := Next(cfg, s, a), MayBeUsable(s, c);
    if a.JobStep? {
      JobStepHarmless(cfg, s, a.job, usable, c);
    } else if a.AdStep? {
      AdStepHarmless(cfg, s, a.ad, c);
    }
    UsableFades(cfg, s, a, c);
    LessUsable(cfg.settings, s'.b, usable, MayBeUsable(s', c), c);
  }

  /** Once nothing is queued on a connection, no rule of it is active and no worker can do harm, no
      sequence of automatic steps (intake, claiming, reclaiming, flood resume, scheduled start,
      settling, health checks) ever queues anything on it, activates a rule of it or sends on it. */
  lemma {:induction false} NothingComesBack(cfg: F.Config, states: seq<State>, steps: seq<Step>, c: ConnId, i: nat)
    requires IsAutomaticRun(cfg, states, steps) && Quiet(states[0], c) && NoHarm(cfg, states[0], c) && i < |states|
    ensures Quiet(states[i], c) && NoHarm(cfg, states[i], c)
    ensures i < |steps| ==> !SendsOn(states[i], steps[i], c)
  {
    if i > 0 {
      NothingComesBack(cfg, states, steps, c, i - 1);
      assert Follows(cfg, states, steps, i - 1);
      RunKeeps(cfg, states, steps, i - 1);
      HarmlessStepKeepsQuiet(cfg, states[i - 1], steps[i - 1], c);
      HarmlessStays(cfg, states[i - 1], steps[i - 1], c);
    }
    if i < |steps| {
      assert Follows(cfg, states, steps, i);
      RunKeeps(cfg, states, steps, i);
      HarmlessStepKeepsQuiet(cfg, states[i], steps[i], c);
    }
  }
}
