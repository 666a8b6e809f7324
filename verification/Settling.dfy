/** What settling a round accounts for, and how the next one is spaced. */
module Settling {
  import opened Types
  import opened Leases
  import opened Delivery
  import opened Broadcasts
  import opened Broadcasting
  import opened Admission

  // ------------------------------------------------------------------------
  // Position order
  // ------------------------------------------------------------------------

  /** `order` lists exactly the given rows, by position: ORDER BY position. */
  ghost predicate InOrder(targets: TargetTable, rows: set<RowId>, order: seq<RowId>) {
    && (forall i :: 0 <= i < |order| ==> order[i] in rows && order[i] in targets)
    && (forall r :: r in rows ==> r in order)
    && (forall i, k :: 0 <= i < k < |order| ==> targets[order[i]].position < targets[order[k]].position)
  }

  /** The row at index `k` of the ordered list is the one with `k` rows before it. */
  lemma IndexIsRank(targets: TargetTable, rows: set<RowId>, order: seq<RowId>, k: nat)
    requires InOrder(targets, rows, order) && k < |order|
    ensures order[k] in targets && Rank(targets, rows, order[k]) == k
  {
    var ahead := Ahead(targets, rows, targets[order[k]].position);
    var front := Members(order[..k]);
    forall r | r in ahead ensures r in front {
      var i :| 0 <= i < |order| && order[i] == r;
      assert i < k && order[..k][i] == r;
    }
    forall r | r in front ensures r in ahead {
      var i :| 0 <= i < k && order[..k][i] == r;
      assert order[i] == r;
    }
    assert ahead == front;
    DistinctSize(order[..k]);
  }

  /** There is a row whose position is lowest. */
  lemma {:induction false} LowestExists(targets: TargetTable, rows: set<RowId>) returns (first: RowId)
    requires rows != {} && forall r :: r in rows ==> r in targets
    ensures first in rows && forall r :: r in rows ==> targets[first].position <= targets[r].position
  {
    first :| first in rows;
    if rows != {first} {
      var rest := LowestExists(targets, rows - {first});
      if targets[rest].position < targets[first].position {
        first := rest;
      }
    }
  }

  /** Rows whose positions differ can be listed in order. */
  lemma {:induction false} OrderExists(targets: TargetTable, rows: set<RowId>) returns (order: seq<RowId>)
    requires forall r :: r in rows ==> r in targets
    requires forall r, u :: r in rows && u in rows && targets[r].position == targets[u].position ==> r == u
    ensures InOrder(targets, rows, order)
  {
    if rows == {} {
      order := [];
    } else {
      var first := LowestExists(targets, rows);
      var rest := OrderExists(targets, rows - {first});
      order := [first] + rest;
      forall r | r in rows ensures r in order {
        if r != first {
          assert r in rest;
        }
      }
    }
  }

  // ------------------------------------------------------------------------
  // Spacing
  // ------------------------------------------------------------------------

  /** The rows are waiting, in position order, exactly `delayMs` apart from `start`. */
  ghost predicate Spaced(targets: TargetTable, rows: set<RowId>, delayMs: nat, start: Time) {
    forall order, k: nat :: InOrder(targets, rows, order) && k < |order| ==>
      targets[order[k]].lease.status == Pending && targets[order[k]].lease.notBefore == start + delayMs * k * 1_000
  }

  lemma PositionsKept(targets: TargetTable, targets': TargetTable, rows: set<RowId>, order: seq<RowId>)
    requires InOrder(targets', rows, order)
    requires forall r :: r in rows && r in targets' ==> r in targets && targets[r].position == targets'[r].position
    ensures InOrder(targets, rows, order)
  {
  }

  /** Scheduling times the waiting rows, and no others. */
  lemma StaggeringSpaces(targets: TargetTable, b: RowId, delayMs: nat, start: Time)
    ensures var targets' := Staggered(targets, b, delayMs, start);
      && PendingOf(targets', b) == PendingOf(targets, b)
      && Spaced(targets', PendingOf(targets', b), delayMs, start)
      && forall r :: r in targets && r !in PendingOf(targets, b) ==> targets'[r] == targets[r]
  {
    var targets' := Staggered(targets, b, delayMs, start);
    var rows := PendingOf(targets, b);
    assert PendingOf(targets', b) == rows;
    forall order, k: nat | InOrder(targets', rows, order) && k < |order|
      ensures targets'[order[k]].lease.status == Pending && targets'[order[k]].lease.notBefore == start + delayMs * k * 1_000
    {
      PositionsKept(targets, targets', rows, order);
      IndexIsRank(targets, rows, order, k);
    }
  }

  /** Reopening puts every row of the ad back, with its attempts cleared. */
  lemma ReopeningSpaces(targets: TargetTable, b: RowId, delayMs: nat, start: Time)
    ensures var targets' := Reopened(targets, b, delayMs, start);
      && RowsOf(targets', b) == RowsOf(targets, b) == PendingOf(targets', b)
      && Spaced(targets', RowsOf(targets', b), delayMs, start)
      && (forall r :: r in RowsOf(targets, b) ==> targets'[r].lease.attempts == 0 && Tidy(targets'[r].lease))
      && forall r :: r in targets && targets[r].ad != b ==> targets'[r] == targets[r]
  {
    var targets' := Reopened(targets, b, delayMs, start);
    var rows := RowsOf(targets, b);
    assert RowsOf(targets', b) == rows && PendingOf(targets', b) == rows;
    forall order, k: nat | InOrder(targets', rows, order) && k < |order|
      ensures targets'[order[k]].lease.status == Pending && targets'[order[k]].lease.notBefore == start + delayMs * k * 1_000
    {
      PositionsKept(targets, targets', rows, order);
      IndexIsRank(targets, rows, order, k);
    }
  }

  // ------------------------------------------------------------------------
  // Settling
  // ------------------------------------------------------------------------

  function DeliveredIn(targets: TargetTable, b: RowId): set<RowId> {
    set r | r in targets && targets[r].ad == b && targets[r].lease.status == Succeeded
  }

  predicate Missing(l: Lease) {
    l.status == Skipped || l.status == Failed || l.status == DeadLetter || l.status == NeedsAttention
  }

  function MissedIn(targets: TargetTable, b: RowId): set<RowId> {
    set r | r in targets && targets[r].ad == b && Missing(targets[r].lease)
  }

  /** A finished round has no group that is neither delivered nor missed. */
  lemma EveryGroupCounted(targets: TargetTable, b: RowId)
    requires RemainingOf(targets, b) == {}
    ensures |DeliveredIn(targets, b)| + |MissedIn(targets, b)| == |RowsOf(targets, b)|
  {
    var all := RowsOf(targets, b);
    forall r | r in all ensures r in DeliveredIn(targets, b) + MissedIn(targets, b) {
      assert r !in RemainingOf(targets, b);
    }
    assert all == DeliveredIn(targets, b) + MissedIn(targets, b);
    assert DeliveredIn(targets, b) !! MissedIn(targets, b);
  }

  /** The next round's number has not been reported yet. */
  lemma NumberIsNew(s: Board, b: RowId)
    requires NotedOnce(s.ads, s.notified) && b in s.ads
    ensures (b, s.ads[b].rounds + 1) !in s.notified
  {
    forall i | 0 <= i < |s.notified| ensures s.notified[i] != (b, s.ads[b].rounds + 1) {
      assert NotedBefore(s.ads, s.notified[i]);
    }
  }

  lemma SettledTables(s: Board, b: RowId, now: Time)
    requires b in s.ads && RoundOver(s, b)
    ensures var s' := Settled(s, b, true, now);
      && b in s'.ads && s'.ads[b].rounds == s.ads[b].rounds + 1
      && s'.ads[b].status == (if Repeats(s.ads[b]) then s.ads[b].status else AdCompleted)
      && s'.notified == (if RowsOf(s.targets, b) == {} then s.notified else s.notified + [(b, s'.ads[b].rounds)])
      && s'.targets == if Repeats(s.ads[b])
                       then Reopened(s.targets, b, s.ads[b].delayMs, now + s.ads[b].repeat.value * SECOND)
                       else s.targets
  {
  }

  /** When a round settles, every group is accounted for as delivered or missed; the round counter
      goes up by one and a round that had any group reports once, under that number; and then the
      ad is completed with its record intact, or every group waits for the next round, spaced by
      exactly the ad's delay in position order from the end of this one. */
  lemma SettlingAccounts(now: Time, s: Board, b: RowId)
    requires NotedOnce(s.ads, s.notified) && b in s.ads && RoundOver(s, b)
    ensures |DeliveredIn(s.targets, b)| + |MissedIn(s.targets, b)| == |RowsOf(s.targets, b)|
    ensures var s' := Settled(s, b, true, now);
      && b in s'.ads && s'.ads[b].rounds == s.ads[b].rounds + 1
      && s'.notified == (if RowsOf(s.targets, b) == {} then s.notified else s.notified + [(b, s'.ads[b].rounds)])
      && (b, s'.ads[b].rounds) !in s.notified
      && (if Repeats(s.ads[b]) then
            && s'.ads[b].status == s.ads[b].status
            && PendingOf(s'.targets, b) == RowsOf(s.targets, b)
            && Spaced(s'.targets, PendingOf(s'.targets, b), s.ads[b].delayMs, now + s.ads[b].repeat.value * SECOND)
          else s'.ads[b].status == AdCompleted && s'.targets == s.targets)
  {
    EveryGroupCounted(s.targets, b);
    NumberIsNew(s, b);
    SettledTables(s, b, now);
    if Repeats(s.ads[b]) {
      ReopeningSpaces(s.targets, b, s.ads[b].delayMs, now + s.ads[b].repeat.value * SECOND);
    }
  }

  /** Positions within an ad differ, so its rows have an order and the spacing above is not vacuous. */
  lemma RowsHaveOrder(settings: Settings, now: Time, s: Board, b: RowId) returns (order: seq<RowId>)
    requires Inv(settings, s, now)
    ensures InOrder(s.targets, RowsOf(s.targets, b), order) && |order| == |RowsOf(s.targets, b)|
  {
    forall r, u | r in RowsOf(s.targets, b) && u in RowsOf(s.targets, b) && s.targets[r].position == s.targets[u].position
      ensures r == u
    {
      assert OwnPlace(s.targets, r, u);
    }
    order := OrderExists(s.targets, RowsOf(s.targets, b));
    DistinctSize(order);
    assert Members(order) == RowsOf(s.targets, b);
  }
}
