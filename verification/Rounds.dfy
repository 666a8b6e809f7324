/** What a round of a broadcast guarantees its groups. */
module Rounds {
  import opened Types
  import opened Leases
  import opened Delivery
  import opened Broadcasts
  import opened Broadcasting
  import opened BroadcastingSafety
  import opened Admission

  /** The steps that begin a new round of ad `b`: a worker settling a repeating ad, and a customer
      sending an ad again that was finished or cancelled. */
  ghost predicate StartsRound(settings: Settings, now: Time, s: Board, a: Action, b: RowId)
    requires Enabled(settings, now, s, a)
  {
    match a
    case SendAd(ad, _) => ad == b && (s.ads[b].status == AdCompleted || s.ads[b].status == AdCancelled)
    case Refuse(t, seen) => s.targets[t.target].ad == b && Reopens(Skip(s, t), b, seen)
    case Commit(t, backoff, seen) =>
      && s.targets[t.target].ad == b
      && Settles(s.hands[t].report, DecisionFor(settings, s, t, backoff))
      && Reopens(Written(settings, s, t, backoff, now), b, seen)
    case _ => false
  }

  ghost predicate InHand(hands: map<Task, Phase>, r: RowId) {
    exists w :: Task(w, r) in hands
  }

  /** A row whose outcome is final for now: not waiting, not leased, and no worker is on it. */
  ghost predicate AtRest(s: Board, r: RowId) {
    r in s.targets && !Unstarted(s.targets[r].lease) && !InHand(s.hands, r)
  }

  ghost predicate Stands(s: Board, s': Board, r: RowId) {
    r in s.targets && r in s.tally && r in s'.targets ==>
      r in s'.tally && s'.targets[r].ad == s.targets[r].ad
      && s'.targets[r].lease == s.targets[r].lease && s'.tally[r] == s.tally[r]
  }

  lemma QueueStands(s: Board, b: RowId, start: Time, r: RowId)
    requires b in s.ads && AtRest(s, r)
    ensures Stands(s, Queued(s, b, start), r)
  {
  }

  lemma ReopenStands(s: Board, b: RowId, start: Time, r: RowId)
    requires b in s.ads && AtRest(s, r) && s.targets[r].ad != b
    ensures Stands(s, Reopen(s, b, start), r)
  {
  }

  lemma SettleStands(s: Board, b: RowId, seen: bool, now: Time, r: RowId)
    requires b in s.ads && AtRest(s, r) && !(Reopens(s, b, seen) && s.targets[r].ad == b)
    ensures Stands(s, Settled(s, b, seen, now), r)
  {
    if seen && RoundOver(s, b) && Repeats(s.ads[b]) {
      var ad := s.ads[b].(rounds := s.ads[b].rounds + 1);
      var s1 := SetAd(s, b, ad).(notified := if RowsOf(s.targets, b) == {} then s.notified else s.notified + [(b, ad.rounds)]);
      ReopenStands(s1, b, now + ad.repeat.value * SECOND, r);
    }
  }

  lemma SendStands(s: Board, b: RowId, valid: bool, now: Time, r: RowId)
    requires b in s.ads && AtRest(s, r)
    requires s.ads[b].status == AdCompleted || s.ads[b].status == AdCancelled ==> s.targets[r].ad != b
    ensures Stands(s, SentBy(s, b, valid, now), r)
  {
    if s.ads[b].status == AdCompleted || s.ads[b].status == AdCancelled {
      ReopenStands(s, b, now, r);
      if valid {
        QueueStands(Reopen(s, b, now), b, now, r);
      }
    } else if valid {
      QueueStands(s, b, now, r);
    }
  }

  lemma RetryStands(s: Board, b: RowId, now: Time, r: RowId)
    requires b in s.ads && AtRest(s, r) && !(s.targets[r].ad == b && Requeueable(s.targets[r].lease))
    ensures Stands(s, Retried(s, b, now), r)
  {
    var s1 := s.(targets := RequeuedFor(s.targets, b, now), tally := Forgiven(s.targets, s.tally, b));
    QueueStands(s1, b, now, r);
  }

  lemma WrittenStands(settings: Settings, s: Board, t: Task, backoff: Time, now: Time, r: RowId)
    requires t in s.hands && s.hands[t].Sent? && t.target in s.targets && t.target in s.tally
    requires s.targets[t.target].ad in s.ads && AtRest(s, r)
    ensures Stands(s, Written(settings, s, t, backoff, now), r) && AtRest(Written(settings, s, t, backoff, now), r)
  {
    assert t == Task(t.worker, t.target);
  }

  lemma CommitStands(settings: Settings, s: Board, t: Task, backoff: Time, seen: bool, now: Time, r: RowId)
    requires t in s.hands && s.hands[t].Sent? && t.target in s.targets && t.target in s.tally
    requires s.targets[t.target].ad in s.ads && AtRest(s, r) && r in s.tally
    requires !(s.targets[t.target].ad == s.targets[r].ad
               && Settles(s.hands[t].report, DecisionFor(settings, s, t, backoff))
               && Reopens(Written(settings, s, t, backoff, now), s.targets[r].ad, seen))
    ensures Stands(s, Committed(settings, s, t, backoff, seen, now), r)
  {
    WrittenStands(settings, s, t, backoff, now, r);
    var w := Written(settings, s, t, backoff, now);
    if Settles(s.hands[t].report, DecisionFor(settings, s, t, backoff)) {
      SettleStands(w, s.targets[t.target].ad, seen, now, r);
    }
  }

  lemma RefuseStands(s: Board, t: Task, seen: bool, now: Time, r: RowId)
    requires t in s.hands && t.target in s.targets && s.targets[t.target].ad in s.ads && AtRest(s, r)
    requires !(s.targets[t.target].ad == s.targets[r].ad && Reopens(Skip(s, t), s.targets[r].ad, seen))
    ensures Stands(s, Settled(Skip(s, t), s.targets[t.target].ad, seen, now), r)
  {
    assert t == Task(t.worker, t.target);
    assert AtRest(Skip(s, t), r);
    SettleStands(Skip(s, t), s.targets[t.target].ad, seen, now, r);
  }

  lemma ListStands(s: Board, b: RowId, wanted: seq<RowId>, newIds: seq<RowId>, now: Time, r: RowId)
    requires |newIds| == |wanted|
    requires forall i, k :: 0 <= i < k < |newIds| ==> newIds[i] != newIds[k]
    requires forall i :: 0 <= i < |newIds| ==> newIds[i] !in s.targets
    ensures var targets' := Selected(s.targets, b, wanted, newIds, now);
      Stands(s, s.(targets := targets', tally := Opened(targets', s.tally)), r)
  {
    SelectedRow(s.targets, b, wanted, newIds, now, r);
  }

  /** Only a new round, or a customer retrying what did not arrive, touches a row that is at rest:
      a group that got the post keeps that record, and an ambiguous post is never sent again by
      itself. */
  lemma RestingRowStands(settings: Settings, now: Time, s: Board, a: Action, r: RowId)
    requires Inv(settings, s, now) && Enabled(settings, now, s, a) && AtRest(s, r)
    requires !StartsRound(settings, now, s, a, s.targets[r].ad)
    requires a == RetryAd(s.targets[r].ad) ==> !Requeueable(s.targets[r].lease)
    ensures Stands(s, Apply(settings, now, s, a), r)
  {
    assert Balances(s.targets, s.hands, s.tally, r) && RowSound(s.ads, s.targets, r);
    match a
    case SetTargets(b, chats, newIds) => ListStands(s, b, Distinct(chats), newIds, now, r);
    case SendAd(b, valid) => SendStands(s, b, valid, now, r);
    case ResumeAd(b) => QueueStands(s, b, now, r);
    case StartScheduled(b, valid) => QueueStands(s, b, now, r);
    case RetryAd(b) =>
      if AnyRequeueable(s.targets, b) {
        RetryStands(s, b, now, r);
      }
    case Refuse(t, seen) => RefuseStands(s, t, seen, now, r);
    case Commit(t, backoff, seen) => CommitStands(settings, s, t, backoff, seen, now, r);
    case Send(t, report) => assert t == Task(t.worker, t.target);
    case Crash(t) => assert t == Task(t.worker, t.target);
    case Heartbeat(t) => assert t == Task(t.worker, t.target);
    case _ =>
  }

  lemma SettlingTakesNothing(s: Board, k: RowId, seen: bool, now: Time)
    requires k in s.ads
    ensures Settled(s, k, seen, now).hands == s.hands
  {
  }

  /** A target is taken in hand only if it was due. */
  lemma HandsComeFromQueue(settings: Settings, now: Time, s: Board, a: Action, t: Task)
    requires Enabled(settings, now, s, a) && t in Apply(settings, now, s, a).hands
    ensures t in s.hands || (t.target in s.targets && s.targets[t.target].lease.status == Pending)
  {
    if a.Commit? {
      SettlingTakesNothing(Written(settings, s, a.task, a.backoff, now), s.targets[a.task.target].ad, a.seen, now);
    } else if a.Refuse? {
      SettlingTakesNothing(Skip(s, a.task), s.targets[a.task.target].ad, a.seen, now);
    }
  }

  lemma RestStays(settings: Settings, now: Time, s: Board, a: Action, r: RowId)
    requires Inv(settings, s, now) && Enabled(settings, now, s, a) && AtRest(s, r)
    requires !StartsRound(settings, now, s, a, s.targets[r].ad)
    requires a == RetryAd(s.targets[r].ad) ==> !Requeueable(s.targets[r].lease)
    ensures r in Apply(settings, now, s, a).targets ==> AtRest(Apply(settings, now, s, a), r)
  {
    RestingRowStands(settings, now, s, a, r);
    assert Balances(s.targets, s.hands, s.tally, r);
    forall w ensures Task(w, r) !in Apply(settings, now, s, a).hands {
      if Task(w, r) in Apply(settings, now, s, a).hands {
        HandsComeFromQueue(settings, now, s, a, Task(w, r));
      }
    }
  }

  // ------------------------------------------------------------------------
  // Only a new round clears the count of posts
  // ------------------------------------------------------------------------

  ghost predicate Counts(s: Board, s': Board, r: RowId) {
    r in s.targets && r in s.tally && r in s'.targets ==>
      r in s'.tally && s'.targets[r].ad == s.targets[r].ad
      && s'.tally[r].posts >= s.tally[r].posts && s'.tally[r].lost >= s.tally[r].lost
  }

  lemma SettleCounts(s: Board, b: RowId, seen: bool, now: Time, r: RowId)
    requires b in s.ads && !(r in s.targets && s.targets[r].ad == b && Reopens(s, b, seen))
    ensures Counts(s, Settled(s, b, seen, now), r)
  {
  }

  lemma WrittenCounts(settings: Settings, s: Board, t: Task, backoff: Time, now: Time, r: RowId)
    requires t in s.hands && s.hands[t].Sent? && t.target in s.targets && t.target in s.tally
    requires s.targets[t.target].ad in s.ads
    ensures Counts(s, Written(settings, s, t, backoff, now), r)
  {
  }

  lemma CommitCounts(settings: Settings, s: Board, t: Task, backoff: Time, seen: bool, now: Time, r: RowId)
    requires t in s.hands && s.hands[t].Sent? && t.target in s.targets && t.target in s.tally
    requires s.targets[t.target].ad in s.ads && r in s.targets && r in s.tally
    requires !(s.targets[t.target].ad == s.targets[r].ad
               && Settles(s.hands[t].report, DecisionFor(settings, s, t, backoff))
               && Reopens(Written(settings, s, t, backoff, now), s.targets[r].ad, seen))
    ensures Counts(s, Committed(settings, s, t, backoff, seen, now), r)
  {
    WrittenCounts(settings, s, t, backoff, now, r);
    if Settles(s.hands[t].report, DecisionFor(settings, s, t, backoff)) {
      SettleCounts(Written(settings, s, t, backoff, now), s.targets[t.target].ad, seen, now, r);
    }
  }

  lemma SendCounts(s: Board, b: RowId, valid: bool, now: Time, r: RowId)
    requires b in s.ads && r in s.targets
    requires s.ads[b].status == AdCompleted || s.ads[b].status == AdCancelled ==> s.targets[r].ad != b
    ensures Counts(s, SentBy(s, b, valid, now), r)
  {
  }

  lemma ListCounts(s: Board, b: RowId, wanted: seq<RowId>, newIds: seq<RowId>, now: Time, r: RowId)
    requires |newIds| == |wanted| && (r in s.targets ==> r in s.tally)
    requires forall i, k :: 0 <= i < k < |newIds| ==> newIds[i] != newIds[k]
    requires forall i :: 0 <= i < |newIds| ==> newIds[i] !in s.targets
    ensures Counts(s, Relisted(s, b, wanted, newIds, now), r)
  {
    SelectedRow(s.targets, b, wanted, newIds, now, r);
  }

  /** The steps that neither end a round nor change the list. */
  lemma OthersCount(settings: Settings, now: Time, s: Board, a: Action, r: RowId)
    requires Enabled(settings, now, s, a) && r in s.targets && r in s.tally
    requires !a.SetTargets? && !a.SendAd? && !a.Commit? && !a.Refuse?
    ensures Counts(s, Apply(settings, now, s, a), r)
  {
  }

  /** Within a round the count of confirmed posts of a group never goes back, whoever acts. */
  lemma PostsNeverUncounted(settings: Settings, now: Time, s: Board, a: Action, r: RowId)
    requires Inv(settings, s, now) && Enabled(settings, now, s, a)
    requires r in s.targets && !StartsRound(settings, now, s, a, s.targets[r].ad)
    ensures Counts(s, Apply(settings, now, s, a), r)
  {
    assert Balances(s.targets, s.hands, s.tally, r);
    match a
    case SetTargets(b, chats, newIds) => ListCounts(s, b, Distinct(chats), newIds, now, r);
    case SendAd(b, valid) => SendCounts(s, b, valid, now, r);
    case Commit(t, backoff, seen) => CommitCounts(settings, s, t, backoff, seen, now, r);
    case Refuse(t, seen) => SettleCounts(Skip(s, t), s.targets[t.target].ad, seen, now, r);
    case _ => OthersCount(settings, now, s, a, r);
  }

  // ------------------------------------------------------------------------
  // Editing the list of groups
  // ------------------------------------------------------------------------

  /** One row when the list of ad `b` becomes `wanted`: listed rows stand where their group does, a
      group that stays keeps its lease and its count of posts, other ads are untouched. */
  ghost predicate RowListed(s: Board, s': Board, b: RowId, wanted: seq<RowId>, r: RowId) {
    && (r in s'.targets && s'.targets[r].ad == b ==>
          s'.targets[r].position < |wanted| && wanted[s'.targets[r].position] == s'.targets[r].chat)
    && (r in s.targets && s.targets[r].ad == b && s.targets[r].chat in wanted ==>
          r in s'.targets && s'.targets[r] == s.targets[r].(position := s'.targets[r].position)
          && r in s.tally && r in s'.tally && s'.tally[r] == s.tally[r])
    && (r in s.targets && s.targets[r].ad == b && s.targets[r].chat !in wanted ==> r !in s'.targets)
    && (r in s.targets && s.targets[r].ad != b ==> r in s'.targets && s'.targets[r] == s.targets[r])
  }

  ghost function Relisted(s: Board, b: RowId, wanted: seq<RowId>, newIds: seq<RowId>, now: Time): Board
    requires |newIds| == |wanted|
    requires forall i, k :: 0 <= i < k < |newIds| ==> newIds[i] != newIds[k]
  {
    var targets' := Selected(s.targets, b, wanted, newIds, now);
    s.(targets := targets', tally := Opened(targets', s.tally))
  }

  lemma ReplacingKeepsRow(s: Board, b: RowId, wanted: seq<RowId>, newIds: seq<RowId>, now: Time, r: RowId)
    requires RoundsBalance(s.targets, s.hands, s.tally)
    requires |newIds| == |wanted|
    requires forall i, k :: 0 <= i < k < |newIds| ==> newIds[i] != newIds[k]
    requires forall i :: 0 <= i < |newIds| ==> newIds[i] !in s.targets
    ensures RowListed(s, Relisted(s, b, wanted, newIds, now), b, wanted, r)
  {
    SelectedRow(s.targets, b, wanted, newIds, now, r);
    assert Balances(s.targets, s.hands, s.tally, r);
  }

  lemma WantedGroupHasRow(s: Board, b: RowId, wanted: seq<RowId>, newIds: seq<RowId>, now: Time, c: RowId)
    requires c in wanted
    requires |newIds| == |wanted|
    requires forall i, k :: 0 <= i < k < |newIds| ==> newIds[i] != newIds[k]
    requires forall i :: 0 <= i < |newIds| ==> newIds[i] !in s.targets
    ensures HasRow(Relisted(s, b, wanted, newIds, now).targets, b, c)
  {
    var targets' := Selected(s.targets, b, wanted, newIds, now);
    if HasRow(s.targets, b, c) {
      var r :| r in s.targets && s.targets[r].ad == b && s.targets[r].chat == c;
      SelectedRow(s.targets, b, wanted, newIds, now, r);
      assert r in targets' && targets'[r].ad == b && targets'[r].chat == c;
    } else {
      var i :| 0 <= i < |wanted| && wanted[i] == c;
      assert newIds[i] in targets' && targets'[newIds[i]].ad == b && targets'[newIds[i]].chat == c;
    }
  }

  /** Replacing the list leaves exactly the wanted groups in the wanted order, each with the history
      it had: editing the groups of an ad never makes it post twice. */
  lemma ReplacingKeepsHistory(settings: Settings, now: Time, s: Board, b: RowId, chats: seq<RowId>, newIds: seq<RowId>)
    requires Inv(settings, s, now) && Enabled(settings, now, s, SetTargets(b, chats, newIds))
    ensures var s' := Apply(settings, now, s, SetTargets(b, chats, newIds));
      && (forall r :: RowListed(s, s', b, Distinct(chats), r))
      && (forall c :: c in chats ==> HasRow(s'.targets, b, c))
  {
    var wanted := Distinct(chats);
    var s' := Relisted(s, b, wanted, newIds, now);
    forall r ensures RowListed(s, s', b, wanted, r) {
      ReplacingKeepsRow(s, b, wanted, newIds, now, r);
    }
    forall c | c in chats ensures HasRow(s'.targets, b, c) {
      WantedGroupHasRow(s, b, wanted, newIds, now, c);
    }
  }
}
