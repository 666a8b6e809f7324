/** Rows visited one by one. */
module Sweeping {
  // A loop over some rows of a table writes the final value of each row it visits; `todo` holds the
  // rows still to come.

  /** One row while `todo` waits: as before if it is to come or is not visited at all. */
  ghost predicate SweptUpTo<K, V>(before: map<K, V>, rows: map<K, V>, after: map<K, V>, todo: set<K>, k: K) {
    && (k in rows <==> k in before) && (k in after <==> k in before)
    && (k in todo ==> k in before)
    && (k in before ==> rows[k] == if k in todo then before[k] else after[k])
  }

  lemma SweepStarts<K, V>(before: map<K, V>, after: map<K, V>, todo: set<K>)
    requires after.Keys == before.Keys && todo <= before.Keys
    requires forall k :: k in before && k !in todo ==> after[k] == before[k]
    ensures forall k :: SweptUpTo(before, before, after, todo, k)
  {
  }

  lemma SweepOneMore<K, V>(before: map<K, V>, rows: map<K, V>, after: map<K, V>, todo: set<K>, k: K,
                           rows': map<K, V>, rest: set<K>)
    requires k in todo && forall i :: SweptUpTo(before, rows, after, todo, i)
    requires k in after && rows' == rows[k := after[k]] && rest == todo - {k}
    ensures forall i :: SweptUpTo(before, rows', after, rest, i)
  {
    assert SweptUpTo(before, rows, after, todo, k);
    forall i ensures SweptUpTo(before, rows', after, rest, i) {
      assert SweptUpTo(before, rows, after, todo, i);
    }
  }

  lemma SweepEnds<K, V>(before: map<K, V>, rows: map<K, V>, after: map<K, V>)
    requires forall k :: SweptUpTo(before, rows, after, {}, k)
    ensures rows == after
  {
    forall k ensures (k in rows <==> k in after) && (k in rows ==> rows[k] == after[k]) {
      assert SweptUpTo(before, rows, after, {}, k);
    }
  }
}
