/**
 * `Object.entries(table).sort(([, a], [, b]) => b - a).slice(0, n)`: the n entries with the
 * largest values. The order among equal values depends on JavaScript's key order and is not
 * specified here; everything stated holds for any tie order.
 */
module Ranking {
  import opened Seqs
  import opened Sorting

  type Entry = (string, int)

  /** The comparator `b - a <= 0`, read as "a may come before b": larger values first. */
  predicate ValueDesc(a: Entry, b: Entry) {
    a.1 >= b.1
  }

  predicate HasId(top: seq<Entry>, k: string) {
    exists i :: 0 <= i < |top| && top[i].0 == k
  }

  /** The entries of `table`, one per key, in the insertion order `keys`. */
  function Entries(table: map<string, int>, keys: seq<string>): (es: seq<Entry>)
    requires forall k :: k in keys ==> k in table
    ensures |es| == |keys|
    ensures forall i :: 0 <= i < |keys| ==> es[i] == (keys[i], table[keys[i]])
  {
    seq(|keys|, i requires 0 <= i < |keys| => (keys[i], table[keys[i]]))
  }

  /** The `n` top entries of `table`. */
  method TopEntries(table: map<string, int>, keys: seq<string>, n: nat) returns (top: seq<Entry>)
    requires Distinct(keys) && forall k :: k in keys <==> k in table
    ensures |top| == Min(n, |keys|)
    ensures forall i :: 0 <= i < |top| ==> top[i].0 in table && top[i].1 == table[top[i].0]
    ensures forall i, j :: 0 <= i < j < |top| ==> top[i].0 != top[j].0
    ensures forall i, j :: 0 <= i < j < |top| ==> top[i].1 >= top[j].1
    ensures forall k, i :: k in table && !HasId(top, k) && 0 <= i < |top| ==> table[k] <= top[i].1
  {
    var entries := Entries(table, keys);
    assert Distinct(entries) by {
      forall i, j | 0 <= i < j < |entries| ensures entries[i] != entries[j] {
        assert keys[i] != keys[j];
      }
    }
    var sorted := SortedCopy(entries, ValueDesc);
    DistinctPermutation(entries, sorted);
    top := sorted[..Min(n, |sorted|)];
    forall i | 0 <= i < |sorted| ensures sorted[i].0 in table && sorted[i].1 == table[sorted[i].0] {
      assert sorted[i] in multiset(entries);
    }
    forall k, i | k in table && !HasId(top, k) && 0 <= i < |top| ensures table[k] <= top[i].1 {
      var m :| 0 <= m < |keys| && keys[m] == k;
      assert entries[m] in multiset(sorted);
      var p :| 0 <= p < |sorted| && sorted[p] == entries[m];
      assert forall q :: 0 <= q < |top| ==> sorted[q].0 != k;
    }
  }
}
