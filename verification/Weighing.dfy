/** The admission loop of the worker. */
module Weighing {
  // It does not matter which table it runs over: a batch has been leased as a whole (`claimed`), and
  // the rows that exceed a connection's ceiling are put back as they were (`before`) one by one
  // (backend/app/worker.py).

  import opened Types
  import opened Admission

  /** Where the loop stands with one row after `i` rows of the batch. */
  ghost predicate Handled<R>(before: map<RowId, R>, claimed: map<RowId, R>, rows: map<RowId, R>, batch: seq<RowId>,
                             conns: seq<ConnId>, base: ConnId -> nat, limit: nat, i: nat, j: RowId)
    requires i <= |batch| == |conns|
  {
    && (j in rows <==> j in before) && (j in claimed <==> j in before)
    && (j in rows && j !in batch ==> rows[j] == before[j])
    && (j in rows ==> forall k :: 0 <= k < |batch| && batch[k] == j ==>
          rows[j] == if k < i && !Admits(conns, base, limit, k) then before[j] else claimed[j])
  }

  ghost predicate AllAt<R>(before: map<RowId, R>, claimed: map<RowId, R>, rows: map<RowId, R>, batch: seq<RowId>,
                           conns: seq<ConnId>, base: ConnId -> nat, limit: nat, i: nat)
    requires i <= |batch| == |conns|
  {
    forall j :: Handled(before, claimed, rows, batch, conns, base, limit, i, j)
  }

  /** What the loop remembers of a connection: nothing until a row on it is admitted, then the work
      in flight with the admitted rows counted in. */
  ghost predicate Tallied(perConnection: map<ConnId, nat>, conns: seq<ConnId>, base: ConnId -> nat, limit: nat, i: nat, c: ConnId)
    requires i <= |conns|
  {
    if c in perConnection then perConnection[c] == base(c) + AdmittedOn(conns, base, limit, i, c)
    else AdmittedOn(conns, base, limit, i, c) == 0
  }

  ghost predicate TallyAt(perConnection: map<ConnId, nat>, conns: seq<ConnId>, base: ConnId -> nat, limit: nat, i: nat)
    requires i <= |conns|
  {
    forall c :: Tallied(perConnection, conns, base, limit, i, c)
  }

  /** The loop after `i` rows. */
  ghost predicate After<R>(before: map<RowId, R>, claimed: map<RowId, R>, rows: map<RowId, R>, batch: seq<RowId>,
                           conns: seq<ConnId>, base: ConnId -> nat, limit: nat,
                           perConnection: map<ConnId, nat>, accepted: seq<RowId>, i: nat)
  {
    && i <= |batch| == |conns|
    && (forall k, m :: 0 <= k < m < |batch| ==> batch[k] != batch[m])
    && (forall k :: 0 <= k < |batch| ==> batch[k] in before)
    && AllAt(before, claimed, rows, batch, conns, base, limit, i)
    && TallyAt(perConnection, conns, base, limit, i)
    && accepted == Kept(conns, batch, base, limit, i)
  }

  lemma Starts<R>(before: map<RowId, R>, claimed: map<RowId, R>, batch: seq<RowId>, conns: seq<ConnId>, base: ConnId -> nat, limit: nat)
    requires |batch| == |conns|
    requires forall k, m :: 0 <= k < m < |batch| ==> batch[k] != batch[m]
    requires forall k :: 0 <= k < |batch| ==> batch[k] in before
    requires claimed.Keys == before.Keys && forall j :: j in before && j !in batch ==> claimed[j] == before[j]
    ensures After(before, claimed, claimed, batch, conns, base, limit, map[], [], 0)
  {
    forall j ensures Handled(before, claimed, claimed, batch, conns, base, limit, 0, j) {
    }
    var empty: map<ConnId, nat> := map[];
    forall c ensures Tallied(empty, conns, base, limit, 0, c) {
    }
  }

  /** Whether the next row is admitted shows in what the loop remembers of its connection. */
  lemma TallyNext(perConnection: map<ConnId, nat>, conns: seq<ConnId>, base: ConnId -> nat, limit: nat, i: nat, inFlight: nat)
    requires i < |conns| && TallyAt(perConnection, conns, base, limit, i)
    requires inFlight == if conns[i] in perConnection then perConnection[conns[i]] else base(conns[i])
    ensures Admits(conns, base, limit, i) <==> inFlight < limit
    ensures TallyAt(if inFlight < limit then perConnection[conns[i] := inFlight + 1] else perConnection, conns, base, limit, i + 1)
  {
    AdmittedExactly(conns, base, limit, i, conns[i]);
    assert Tallied(perConnection, conns, base, limit, i, conns[i]);
    var after := if inFlight < limit then perConnection[conns[i] := inFlight + 1] else perConnection;
    var n := i + 1;
    forall c ensures Tallied(after, conns, base, limit, n, c) {
      assert Tallied(perConnection, conns, base, limit, i, c);
    }
  }

  lemma RowsNext<R>(before: map<RowId, R>, claimed: map<RowId, R>, rows: map<RowId, R>, rows': map<RowId, R>, batch: seq<RowId>,
                    conns: seq<ConnId>, base: ConnId -> nat, limit: nat, i: nat)
    requires i < |batch| == |conns|
    requires forall k, m :: 0 <= k < m < |batch| ==> batch[k] != batch[m]
    requires batch[i] in before
    requires AllAt(before, claimed, rows, batch, conns, base, limit, i)
    requires rows' == if Admits(conns, base, limit, i) then rows else rows[batch[i] := before[batch[i]]]
    ensures AllAt(before, claimed, rows', batch, conns, base, limit, i + 1)
  {
    var n := i + 1;
    forall j ensures Handled(before, claimed, rows', batch, conns, base, limit, n, j) {
      assert Handled(before, claimed, rows, batch, conns, base, limit, i, j);
    }
  }

  /** One pass of the loop, whichever way it goes. */
  lemma GoesOn<R>(before: map<RowId, R>, claimed: map<RowId, R>, rows: map<RowId, R>, batch: seq<RowId>,
                  conns: seq<ConnId>, base: ConnId -> nat, limit: nat,
                  perConnection: map<ConnId, nat>, accepted: seq<RowId>, i: nat, inFlight: nat)
    requires After(before, claimed, rows, batch, conns, base, limit, perConnection, accepted, i) && i < |batch|
    requires inFlight == if conns[i] in perConnection then perConnection[conns[i]] else base(conns[i])
    ensures if inFlight >= limit then
              After(before, claimed, rows[batch[i] := before[batch[i]]], batch, conns, base, limit, perConnection, accepted, i + 1)
            else
              After(before, claimed, rows, batch, conns, base, limit,
                    perConnection[conns[i] := inFlight + 1], accepted + [batch[i]], i + 1)
  {
    TallyNext(perConnection, conns, base, limit, i, inFlight);
    RowsNext(before, claimed, rows, if inFlight >= limit then rows[batch[i] := before[batch[i]]] else rows,
             batch, conns, base, limit, i);
  }

  /** What is left of the batch in hand when the loop ends. */
  lemma Ends<R>(before: map<RowId, R>, claimed: map<RowId, R>, rows: map<RowId, R>, batch: seq<RowId>,
                conns: seq<ConnId>, base: ConnId -> nat, limit: nat, perConnection: map<ConnId, nat>, accepted: seq<RowId>, j: RowId)
    requires After(before, claimed, rows, batch, conns, base, limit, perConnection, accepted, |batch|)
    ensures (j in rows <==> j in before) && (j in claimed <==> j in before)
    ensures j in before ==> rows[j] == if j in accepted then claimed[j] else before[j]
  {
    assert Handled(before, claimed, rows, batch, conns, base, limit, |batch|, j);
    if j in batch {
      var k :| 0 <= k < |batch| && batch[k] == j;
      KeptExactly(conns, batch, base, limit, |batch|, k);
    } else {
      KeptFromFront(conns, batch, base, limit, |batch|);
    }
  }
}
