/** What holds in every state of every run. */
module Guarantees {
  // From an empty database, with any number of workers, crashes, replays, edits, retries and manual
  // requeues.

  import opened Types
  import opened Leases
  import opened Delivery
  import opened Idempotency
  import opened System
  import F = Forwarding
  import B = Broadcasting
  import FS = ForwardingSafety
  import BS = BroadcastingSafety
  import J = Jobs
  import T = Broadcasts
  import Admission
  import Rounds

  ghost predicate Reaches(cfg: F.Config, states: seq<State>, steps: seq<Step>, i: nat) {
    cfg.settings.leaseTime >= 0 && IsRun(cfg, states, steps) && i < |states| && Initial(states[0])
  }

  lemma ReachedIsSound(cfg: F.Config, states: seq<State>, steps: seq<Step>, i: nat)
    requires Reaches(cfg, states, steps, i)
    ensures Inv(cfg, states[i])
  {
    RunKeeps(cfg, states, steps, i);
  }

  // ------------------------------------------------------------------------
  // At most once
  // ------------------------------------------------------------------------

  /** On a user account, a rule that never ran in copy mode delivers a message to a destination at
      most once: no two accepted sends share rule, source, anchor and destination. */
  lemma AtMostOnceEndToEnd(cfg: F.Config, states: seq<State>, steps: seq<Step>, i: nat, p: nat, q: nat)
    requires Reaches(cfg, states, steps, i) && p < q < |states[i].f.log|
    requires states[i].f.log[p].route == states[i].f.log[q].route
    ensures states[i].f.log[p].route.rule in states[i].f.rules
    ensures states[i].f.rules[states[i].f.log[p].route.rule].conn in cfg.userAccounts ==>
      states[i].f.log[p].route.rule in states[i].f.copied
  {
    ReachedIsSound(cfg, states, steps, i);
    var f := states[i].f;
    assert F.Remembered(cfg, f.rules, f.seen, f.log[p]);
    assert F.CopyKnown(cfg, f.rules, f.copied, f.log[p]) && F.CopyKnown(cfg, f.rules, f.copied, f.log[q]);
  }

  /** A delivery has one row, however often its update is replayed. */
  lemma OneJobPerDelivery(cfg: F.Config, states: seq<State>, steps: seq<Step>, i: nat, j: RowId, k: RowId)
    requires Reaches(cfg, states, steps, i) && j in states[i].f.jobs && k in states[i].f.jobs
    requires states[i].f.jobs[j].ids != [] && states[i].f.jobs[k].ids != []
    requires states[i].f.jobs[j].Route() == states[i].f.jobs[k].Route()
    ensures j == k
  {
    ReachedIsSound(cfg, states, steps, i);
    var f := states[i].f;
    assert F.RowSound(cfg, f.rules, f.jobs, j) && F.RowSound(cfg, f.rules, f.jobs, k);
    assert F.SameKeySameRow(f.jobs, j, k);
  }

  predicate KeyAt(jobs: J.JobTable, j: RowId, key: string) {
    j in jobs && jobs[j].key == key
  }

  lemma RowKeepsKey(cfg: F.Config, now: Time, f: F.Forward, x: F.Action, j: RowId, key: string)
    requires F.Inv(cfg, f, now) && F.Enabled(cfg, now, f, x) && KeyAt(f.jobs, j, key)
    ensures KeyAt(F.Apply(cfg, now, f, x).jobs, j, key)
  {
    if x.Dispatch? {
      FS.DispatchedAdds(cfg.keys, f.jobs, x.rule, f.rules[x.rule], x.source, x.ids, x.eligible, x.newIds, now, |x.newIds|);
    }
  }

  lemma WithdrawnKeepsKey(f: F.Forward, c: ConnId, j: RowId, key: string)
    requires KeyAt(f.jobs, j, key)
    ensures KeyAt(F.Withdrawn(f, c).jobs, j, key)
  {
  }

  lemma KeyStays(cfg: F.Config, s: State, a: Step, j: RowId, key: string)
    requires Inv(cfg, s) && Enabled(cfg, s, a) && KeyAt(s.f.jobs, j, key)
    ensures KeyAt(Next(cfg, s, a).f.jobs, j, key)
  {
    match a
    case JobStep(x) => RowKeepsKey(cfg, s.now, s.f, x, j, key);
    case AdStep(x) =>
      if x.Commit? {
        WithdrawnKeepsKey(s.f, s.b.ads[s.b.targets[x.task.target].ad].conn, j, key);
      }
    case Suspend(c) => WithdrawnKeepsKey(s.f, c, j, key);
    case _ =>
  }

  /** No other delivery has the key of this one: no collision of the digest. */
  ghost predicate KeyIsOwn(keys: Keys, route: Route) {
    forall other: Route :: keys.key(other) == keys.key(route) ==> other == route
  }

  /** A row under the delivery's key; it is the delivery's own unless its key collides. */
  ghost predicate HasDelivery(keys: Keys, jobs: J.JobTable, route: Route) {
    exists j :: DeliveryAt(keys, jobs, j, route)
  }

  predicate DeliveryAt(keys: Keys, jobs: J.JobTable, j: RowId, route: Route) {
    && KeyAt(jobs, j, keys.key(route)) && jobs[j].ids != [] && keys.key(jobs[j].Route()) == keys.key(route)
  }

  lemma KeyIsDelivery(cfg: F.Config, f: F.Forward, now: Time, j: RowId, route: Route)
    requires F.Inv(cfg, f, now) && KeyAt(f.jobs, j, cfg.keys.key(route))
    ensures DeliveryAt(cfg.keys, f.jobs, j, route)
  {
    assert F.RowSound(cfg, f.rules, f.jobs, j);
  }

  lemma {:induction false} KeyNeverLost(cfg: F.Config, states: seq<State>, steps: seq<Step>, n: nat, m: nat, i: nat)
    returns (j: RowId)
    requires Reaches(cfg, states, steps, m) && n < m && steps[n].JobStep? && steps[n].job.Dispatch?
    requires i < |steps[n].job.eligible| && steps[n].job.eligible[i]
    ensures var x := steps[n].job;
      && x.rule in states[n].f.rules && x.ids != [] && i < |states[n].f.rules[x.rule].dests|
      && KeyAt(states[m].f.jobs, j, cfg.keys.key(RouteOf(x.rule, x.source, x.ids, states[n].f.rules[x.rule].dests[i])))
  {
    var x, f := steps[n].job, states[n].f;
    assert Follows(cfg, states, steps, m - 1) && Follows(cfg, states, steps, n);
    RunKeeps(cfg, states, steps, m - 1);
    if n == m - 1 {
      FS.DispatchedCovers(cfg.keys, f.jobs, x.rule, f.rules[x.rule], x.source, x.ids, x.eligible, x.newIds,
                          states[n].now, |x.newIds|, i);
      var key := cfg.keys.key(RouteOf(x.rule, x.source, x.ids, f.rules[x.rule].dests[i]));
      j :| j in states[m].f.jobs && states[m].f.jobs[j].key == key;
    } else {
      j := KeyNeverLost(cfg, states, steps, n, m - 1, i);
      KeyStays(cfg, states[m - 1], steps[m - 1], j, cfg.keys.key(RouteOf(x.rule, x.source, x.ids, f.rules[x.rule].dests[i])));
    }
  }

  /** Suppressing duplicates loses nothing: once a message was taken in, each destination that was
      eligible for it has a row from then on, under its key; and that row is of this very delivery
      unless two deliveries share a key. */
  lemma EligibleNeverLost(cfg: F.Config, states: seq<State>, steps: seq<Step>, n: nat, m: nat, i: nat)
    requires Reaches(cfg, states, steps, m) && n < m && steps[n].JobStep? && steps[n].job.Dispatch?
    requires i < |steps[n].job.eligible| && steps[n].job.eligible[i]
    ensures var x := steps[n].job;
      && x.rule in states[n].f.rules && x.ids != [] && i < |states[n].f.rules[x.rule].dests|
      && var route := RouteOf(x.rule, x.source, x.ids, states[n].f.rules[x.rule].dests[i]);
         && HasDelivery(cfg.keys, states[m].f.jobs, route)
         && (KeyIsOwn(cfg.keys, route) ==>
               exists j :: DeliveryAt(cfg.keys, states[m].f.jobs, j, route) && states[m].f.jobs[j].Route() == route)
  {
    var j := KeyNeverLost(cfg, states, steps, n, m, i);
    RunKeeps(cfg, states, steps, m);
    var x := steps[n].job;
    KeyIsDelivery(cfg, states[m].f, states[m].now, j, RouteOf(x.rule, x.source, x.ids, states[n].f.rules[x.rule].dests[i]));
  }

  /** Where no token protects the send, a job lands at most once, plus once for every crash between
      a send and its commit, plus once for every ambiguous outcome that a customer requeued. */
  lemma SendsAccountedFor(cfg: F.Config, states: seq<State>, steps: seq<Step>, i: nat, j: RowId)
    requires Reaches(cfg, states, steps, i) && j in states[i].f.jobs
    ensures j in states[i].f.ledger
    ensures var l := states[i].f.ledger[j];
      l.lost + l.requeued <= l.landed <= l.lost + l.requeued + 1
    ensures states[i].f.jobs[j].lease.status == Succeeded ==>
      states[i].f.ledger[j].landed == states[i].f.ledger[j].lost + states[i].f.ledger[j].requeued + 1
  {
    ReachedIsSound(cfg, states, steps, i);
    assert F.Balances(states[i].f.jobs, states[i].f.hands, states[i].f.ledger, j);
  }

  // ------------------------------------------------------------------------
  // Leases
  // ------------------------------------------------------------------------

  /** No job is in two hands; what is in hand is leased to its holder or was cancelled under it; and
      only leased rows name an owner or an expiry. */
  lemma JobLeasesExclude(cfg: F.Config, states: seq<State>, steps: seq<Step>, i: nat, j: RowId, w: WorkerId, v: WorkerId)
    requires Reaches(cfg, states, steps, i)
    ensures var f := states[i].f;
      && (F.Task(w, j) in f.hands && F.Task(v, j) in f.hands ==> w == v)
      && (F.Task(w, j) in f.hands ==>
            j in f.jobs && (f.jobs[j].lease.status == Skipped
                            || (f.jobs[j].lease.status == Leased && f.jobs[j].lease.owner == Some(w))))
      && (j in f.jobs ==> Tidy(f.jobs[j].lease))
  {
    ReachedIsSound(cfg, states, steps, i);
    var f := states[i].f;
    assert F.OneHolder(f.hands, j, w, v) && F.HandSound(f.jobs, f.hands, states[i].now, F.Task(w, j));
    assert F.RowSound(cfg, f.rules, f.jobs, j);
  }

  lemma TargetLeasesExclude(cfg: F.Config, states: seq<State>, steps: seq<Step>, i: nat, r: RowId, w: WorkerId, v: WorkerId)
    requires Reaches(cfg, states, steps, i) && r in states[i].b.targets
    ensures var b := states[i].b;
      && (B.Task(w, r) in b.hands && B.Task(v, r) in b.hands ==> w == v)
      && (B.Task(w, r) in b.hands ==>
            b.targets[r].lease.status == Skipped
            || (b.targets[r].lease.status == Leased && b.targets[r].lease.owner == Some(w)))
      && Tidy(b.targets[r].lease)
  {
    ReachedIsSound(cfg, states, steps, i);
    var b := states[i].b;
    assert B.OneHolder(b.targets, b.hands, r, w, v) && B.HandSound(b.targets, b.hands, states[i].now, B.Task(w, r));
    assert B.RowSound(b.ads, b.targets, r);
  }

  // ------------------------------------------------------------------------
  // Ceilings and retries
  // ------------------------------------------------------------------------

  /** The jobs of a connection that are leased, and the targets of its ads that are. */
  function LeasedJobs(jobs: J.JobTable, c: ConnId): set<RowId> {
    set j | j in jobs && jobs[j].conn == c && jobs[j].lease.status == Leased
  }

  function LeasedTargets(ads: T.AdTable, targets: T.TargetTable, c: ConnId): set<RowId> {
    set r | r in targets && targets[r].ad in ads && ads[targets[r].ad].conn == c && targets[r].lease.status == Leased
  }

  lemma LeasedAreInFlight(jobs: J.JobTable, ads: T.AdTable, targets: T.TargetTable, c: ConnId)
    ensures J.InFlight(jobs, c) == |LeasedJobs(jobs, c)|
    ensures T.InFlight(ads, targets, c) == |LeasedTargets(ads, targets, c)|
  {
    assert J.LeasedOn(jobs, c) == LeasedJobs(jobs, c);
    assert T.LeasedOn(ads, targets, c) == LeasedTargets(ads, targets, c);
  }

  /** Leased jobs on a connection never exceed the forwarding ceiling, leased targets never exceed
      the broadcast one, and so the two together never exceed their sum. */
  lemma CeilingsHold(cfg: F.Config, states: seq<State>, steps: seq<Step>, i: nat, c: ConnId)
    requires Reaches(cfg, states, steps, i)
    ensures |LeasedJobs(states[i].f.jobs, c)| <= cfg.settings.perConnectionInflight
    ensures |LeasedTargets(states[i].b.ads, states[i].b.targets, c)| <= cfg.settings.broadcastInflight
    ensures |LeasedJobs(states[i].f.jobs, c)| + |LeasedTargets(states[i].b.ads, states[i].b.targets, c)|
         <= cfg.settings.perConnectionInflight + cfg.settings.broadcastInflight
  {
    ReachedIsSound(cfg, states, steps, i);
    LeasedAreInFlight(states[i].f.jobs, states[i].b.ads, states[i].b.targets, c);
    assert J.InFlight(states[i].f.jobs, c) <= cfg.settings.perConnectionInflight;
    assert T.InFlight(states[i].b.ads, states[i].b.targets, c) <= cfg.settings.broadcastInflight;
  }

  lemma ClaimKeepsJointCeiling(cfg: F.Config, s: State, a: Step, c: ConnId)
    requires Inv(cfg, s) && Enabled(cfg, s, a) && a.AdStep? && a.ad.Claim?
    ensures var before := T.InFlight(s.b.ads, s.b.targets, c);
      var after := T.InFlight(Next(cfg, s, a).b.ads, Next(cfg, s, a).b.targets, c);
      after <= before || J.InFlight(s.f.jobs, c) + after <= cfg.settings.broadcastInflight
  {
    assert T.InFlight(s.b.ads, s.b.targets, c) <= cfg.settings.broadcastInflight;
    BS.ClaimKeepsCeilingOn(s.b.ads, s.b.targets, a.ad.jobs, a.ad.batch, a.ad.worker, s.now, a.ad.capacity,
                           s.now + cfg.settings.leaseTime, cfg.settings.broadcastInflight, c);
  }

  /** Targets are let in only while both kinds of work together stay within the broadcast ceiling. */
  lemma TargetsAdmittedUnderJointCeiling(cfg: F.Config, s: State, a: Step, c: ConnId)
    requires Inv(cfg, s) && Enabled(cfg, s, a) && a.AdStep? && a.ad.Claim?
    ensures var before := |LeasedTargets(s.b.ads, s.b.targets, c)|;
      var after := |LeasedTargets(Next(cfg, s, a).b.ads, Next(cfg, s, a).b.targets, c)|;
      after <= before || |LeasedJobs(s.f.jobs, c)| + after <= cfg.settings.broadcastInflight
  {
    ClaimKeepsJointCeiling(cfg, s, a, c);
    LeasedAreInFlight(s.f.jobs, s.b.ads, s.b.targets, c);
    LeasedAreInFlight(s.f.jobs, Next(cfg, s, a).b.ads, Next(cfg, s, a).b.targets, c);
  }

  /** Since the last manual reset, a job suffers no more transient or unknown failures than its
      attempt limit, however they interleave with rate limits and reclaims; and as long as it is
      not dead it has attempts left. */
  lemma JobRetriesBounded(cfg: F.Config, states: seq<State>, steps: seq<Step>, i: nat, j: RowId)
    requires Reaches(cfg, states, steps, i) && j in states[i].f.jobs
    ensures j in states[i].f.ledger && states[i].f.jobs[j].rule in states[i].f.rules
    ensures var cap := F.Cap(cfg, states[i].f.rules[states[i].f.jobs[j].rule]);
      && states[i].f.ledger[j].failures <= cap
      && (states[i].f.jobs[j].lease.status != DeadLetter ==>
            states[i].f.ledger[j].failures < cap && states[i].f.ledger[j].failures <= states[i].f.jobs[j].lease.attempts)
  {
    ReachedIsSound(cfg, states, steps, i);
    var f := states[i].f;
    assert F.Balances(f.jobs, f.hands, f.ledger, j) && F.RowSound(cfg, f.rules, f.jobs, j);
    assert F.RetryBounded(cfg, f.rules, f.jobs, f.ledger, j);
  }

  lemma TargetRetriesBounded(cfg: F.Config, states: seq<State>, steps: seq<Step>, i: nat, r: RowId)
    requires Reaches(cfg, states, steps, i) && r in states[i].b.targets
    ensures r in states[i].b.tally
    ensures var cap := Max(1, cfg.settings.maxAttempts);
      && states[i].b.tally[r].failures <= cap
      && (states[i].b.targets[r].lease.status != DeadLetter ==>
            states[i].b.tally[r].failures < cap && states[i].b.tally[r].failures <= states[i].b.targets[r].lease.attempts)
  {
    ReachedIsSound(cfg, states, steps, i);
    var b := states[i].b;
    assert B.Balances(b.targets, b.hands, b.tally, r) && B.RetryBounded(cfg.settings, b.targets, b.tally, r);
  }

  // ------------------------------------------------------------------------
  // Rounds
  // ------------------------------------------------------------------------

  /** A group that stays selected gets at most one confirmed post in a round, crashes between send
      and commit aside, and one exactly when its target is `succeeded` or about to be. */
  lemma OnePostPerRound(cfg: F.Config, states: seq<State>, steps: seq<Step>, i: nat, r: RowId)
    requires Reaches(cfg, states, steps, i) && r in states[i].b.targets
    ensures r in states[i].b.tally
    ensures var b := states[i].b;
      var confirmed := b.tally[r].posts - b.tally[r].lost;
      && 0 <= confirmed <= 1
      && (confirmed == 1 <==> b.targets[r].lease.status == Succeeded || B.InHandPosted(b.hands, r))
  {
    ReachedIsSound(cfg, states, steps, i);
    assert B.Balances(states[i].b.targets, states[i].b.hands, states[i].b.tally, r);
  }

  /** The steps that may change a target that is at rest: those that start a new round of its ad,
      and a customer retrying what did not arrive. */
  ghost predicate Renews(cfg: F.Config, s: State, a: Step, r: RowId)
    requires Enabled(cfg, s, a) && r in s.b.targets
  {
    a.AdStep?
    && (Rounds.StartsRound(cfg.settings, s.now, s.b, a.ad, s.b.targets[r].ad)
        || (a.ad == B.RetryAd(s.b.targets[r].ad) && Requeueable(s.b.targets[r].lease)))
  }

  lemma WithdrawalStands(b: B.Board, c: ConnId, reason: T.PauseReason, r: RowId)
    requires Rounds.AtRest(b, r)
    ensures Rounds.Stands(b, B.Withdrawn(b, c, reason), r) && Rounds.AtRest(B.Withdrawn(b, c, reason), r)
  {
  }

  lemma StepStands(cfg: F.Config, s: State, a: Step, r: RowId)
    requires Inv(cfg, s) && Enabled(cfg, s, a) && Rounds.AtRest(s.b, r) && !Renews(cfg, s, a, r)
    ensures Rounds.Stands(s.b, Next(cfg, s, a).b, r)
    ensures r in Next(cfg, s, a).b.targets ==> Rounds.AtRest(Next(cfg, s, a).b, r)
  {
    match a
    case JobStep(j) =>
      if j.Commit? {
        WithdrawalStands(s.b, s.f.jobs[j.task.job].conn, T.ConnectionLost, r);
      }
    case AdStep(x) =>
      Rounds.RestingRowStands(cfg.settings, s.now, s.b, x, r);
      Rounds.RestStays(cfg.settings, s.now, s.b, x, r);
    case Suspend(c) => WithdrawalStands(s.b, c, T.AccountSuspended, r);
    case _ =>
  }

  ghost predicate Unrenewed(cfg: F.Config, states: seq<State>, steps: seq<Step>, r: RowId, k: nat)
    requires IsRun(cfg, states, steps) && k < |steps|
  {
    Follows(cfg, states, steps, k) && r in states[k].b.targets && r in states[k + 1].b.targets
    && !Renews(cfg, states[k], steps[k], r)
  }

  /** As long as the group stays selected and no new round or retry begins, nothing changes the
      record of a finished target: a group that was reached is not posted to again, and an
      ambiguous post is not repeated by itself. */
  lemma {:induction false} OutcomeStands(cfg: F.Config, states: seq<State>, steps: seq<Step>, r: RowId, i: nat)
    requires cfg.settings.leaseTime >= 0 && IsRun(cfg, states, steps) && Inv(cfg, states[0]) && i < |states|
    requires Rounds.AtRest(states[0].b, r)
    requires forall k :: 0 <= k < |steps| ==> Unrenewed(cfg, states, steps, r, k)
    ensures Rounds.AtRest(states[i].b, r) && r in states[0].b.tally && r in states[i].b.tally
    ensures states[i].b.targets[r].lease == states[0].b.targets[r].lease
    ensures states[i].b.tally[r] == states[0].b.tally[r]
  {
    assert B.Balances(states[0].b.targets, states[0].b.hands, states[0].b.tally, r);
    if i > 0 {
      OutcomeStands(cfg, states, steps, r, i - 1);
      assert Unrenewed(cfg, states, steps, r, i - 1);
      RunKeeps(cfg, states, steps, i - 1);
      StepStands(cfg, states[i - 1], steps[i - 1], r);
    }
  }
}
