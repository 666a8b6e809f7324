/** Greedy admission (backend/app/worker.py). */
module Admission {
  // The batch is given by the connection of each row; `base` is what each connection already has in
  // flight.

  import opened Types

  /** How many of the first `n` rows of the batch are on connection `c`. */
  function Before(conns: seq<ConnId>, n: nat, c: ConnId): (k: nat)
    requires n <= |conns|
    ensures k <= n
  {
    if n == 0 then 0 else Before(conns, n - 1, c) + if conns[n - 1] == c then 1 else 0
  }

  /** Row `i` is admitted exactly when the work in flight and the earlier rows of its own
      connection leave room below the limit. */
  predicate Admits(conns: seq<ConnId>, base: ConnId -> nat, limit: nat, i: nat)
    requires i < |conns|
  {
    base(conns[i]) + Before(conns, i, conns[i]) < limit
  }

  /** How many of the first `n` rows are admitted on connection `c`. */
  function AdmittedOn(conns: seq<ConnId>, base: ConnId -> nat, limit: nat, n: nat, c: ConnId): nat
    requires n <= |conns|
  {
    if n == 0 then 0
    else AdmittedOn(conns, base, limit, n - 1, c)
         + if conns[n - 1] == c && Admits(conns, base, limit, n - 1) then 1 else 0
  }

  function Room(base: nat, limit: nat): nat {
    if base < limit then limit - base else 0
  }

  /** Greedy admission wastes no room and exceeds none: each connection gets the smaller of what
      it asked for and what was left. */
  lemma {:induction false} AdmittedExactly(conns: seq<ConnId>, base: ConnId -> nat, limit: nat, n: nat, c: ConnId)
    requires n <= |conns|
    ensures AdmittedOn(conns, base, limit, n, c)
         == if Before(conns, n, c) <= Room(base(c), limit) then Before(conns, n, c) else Room(base(c), limit)
  {
    if n > 0 {
      AdmittedExactly(conns, base, limit, n - 1, c);
    }
  }

  lemma {:induction false} SubsetSize<T>(a: set<T>, b: set<T>)
    requires a <= b
    ensures |a| <= |b|
  {
    if a != {} {
      var x :| x in a;
      SubsetSize(a - {x}, b - {x});
    }
  }

  /** The admitted rows of a connection, among the first `n`. */
  function TakenOn(conns: seq<ConnId>, batch: seq<RowId>, base: ConnId -> nat, limit: nat, n: nat, c: ConnId): set<RowId>
    requires n <= |conns| == |batch|
  {
    set i | 0 <= i < n && conns[i] == c && Admits(conns, base, limit, i) :: batch[i]
  }

  lemma {:induction false} TakenCounted(conns: seq<ConnId>, batch: seq<RowId>, base: ConnId -> nat, limit: nat, n: nat, c: ConnId)
    requires n <= |conns| == |batch|
    ensures |TakenOn(conns, batch, base, limit, n, c)| <= AdmittedOn(conns, base, limit, n, c)
  {
    if n > 0 {
      var before := TakenOn(conns, batch, base, limit, n - 1, c);
      TakenCounted(conns, batch, base, limit, n - 1, c);
      if conns[n - 1] == c && Admits(conns, base, limit, n - 1) {
        assert TakenOn(conns, batch, base, limit, n, c) == before + {batch[n - 1]};
      } else {
        assert TakenOn(conns, batch, base, limit, n, c) == before;
      }
    } else {
      assert TakenOn(conns, batch, base, limit, n, c) == {};
    }
  }

  /** No more rows are taken on a connection than there was room for. */
  lemma TakenFits(conns: seq<ConnId>, batch: seq<RowId>, base: ConnId -> nat, limit: nat, c: ConnId)
    requires |conns| == |batch|
    ensures |TakenOn(conns, batch, base, limit, |batch|, c)| <= Room(base(c), limit)
  {
    TakenCounted(conns, batch, base, limit, |batch|, c);
    AdmittedExactly(conns, base, limit, |batch|, c);
  }

  /** What is within two sets is no larger than both together. */
  lemma WithinBoth(part: set<RowId>, a: set<RowId>, b: set<RowId>)
    requires part <= a + b
    ensures |part| <= |a| + |b|
  {
    SubsetSize(part, a + b);
  }

  function Members(order: seq<RowId>): set<RowId> {
    set r | r in order
  }

  /** A list without repetitions is as long as its set of members. */
  lemma {:induction false} DistinctSize(order: seq<RowId>)
    requires forall i, k :: 0 <= i < k < |order| ==> order[i] != order[k]
    ensures |Members(order)| == |order|
  {
    if order != [] {
      var n := |order| - 1;
      DistinctSize(order[..n]);
      assert order == order[..n] + [order[n]];
      assert order[n] !in Members(order[..n]);
      assert Members(order) == Members(order[..n]) + {order[n]};
    }
  }

  /** The rows that greedy admission keeps, in batch order. */
  function Kept(conns: seq<ConnId>, batch: seq<RowId>, base: ConnId -> nat, limit: nat, n: nat): (kept: seq<RowId>)
    requires n <= |conns| == |batch|
    ensures |kept| <= n
  {
    if n == 0 then []
    else
      var front := Kept(conns, batch, base, limit, n - 1);
      if Admits(conns, base, limit, n - 1) then front + [batch[n - 1]] else front
  }

  /** A row of the batch is kept exactly when it is admitted. */
  lemma {:induction false} KeptExactly(conns: seq<ConnId>, batch: seq<RowId>, base: ConnId -> nat, limit: nat, n: nat, i: nat)
    requires i < n <= |conns| == |batch|
    requires forall i, k :: 0 <= i < k < |batch| ==> batch[i] != batch[k]
    ensures batch[i] in Kept(conns, batch, base, limit, n) <==> Admits(conns, base, limit, i)
  {
    if i < n - 1 {
      KeptExactly(conns, batch, base, limit, n - 1, i);
    } else {
      KeptFromFront(conns, batch, base, limit, n - 1);
    }
  }

  lemma {:induction false} KeptFromFront(conns: seq<ConnId>, batch: seq<RowId>, base: ConnId -> nat, limit: nat, n: nat)
    requires n <= |conns| == |batch|
    ensures forall r :: r in Kept(conns, batch, base, limit, n) ==> r in batch[..n]
  {
    if n > 0 {
      KeptFromFront(conns, batch, base, limit, n - 1);
    }
  }
}
