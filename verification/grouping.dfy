/**
 * Group-by over a sequence into a JavaScript object used as a dictionary:
 * `table[key(x)] = (table[key(x)] || 0) + val(x)` for every x in order.
 * `KeyedSum` is the specification of one entry, `KeySet` of the keys present.
 */
module Grouping {
  import opened Seqs
  import opened Records

  /** The sum of `val` over the elements of `s` whose key is `k`. */
  function KeyedSum<T>(s: seq<T>, key: T -> string, val: T -> int, k: string): int {
    if s == [] then 0
    else KeyedSum(s[..|s| - 1], key, val, k) + (if key(s[|s| - 1]) == k then val(s[|s| - 1]) else 0)
  }

  /** The keys that occur in `s`. */
  function KeySet<T>(s: seq<T>, key: T -> string): (r: set<string>)
    ensures forall i :: 0 <= i < |s| ==> key(s[i]) in r
    ensures forall k :: k in r ==> exists i :: 0 <= i < |s| && key(s[i]) == k
  {
    if s == [] then {} else KeySet(s[..|s| - 1], key) + {key(s[|s| - 1])}
  }

  /** A key that never occurs sums to 0. */
  lemma {:induction false} KeyedSumAbsent<T>(s: seq<T>, key: T -> string, val: T -> int, k: string)
    requires k !in KeySet(s, key)
    ensures KeyedSum(s, key, val, k) == 0
  {
    if s != [] {
      KeyedSumAbsent(s[..|s| - 1], key, val, k);
    }
  }

  /** `table` and its insertion-ordered key list `keys` hold the grouping of `s`. */
  ghost predicate Tabulates<T>(table: map<string, int>, keys: seq<string>, s: seq<T>, key: T -> string, val: T -> int) {
    && Distinct(keys)
    && (forall k :: k in keys <==> k in table)
    && (forall k :: k in table <==> k in KeySet(s, key))
    && (forall k :: k in table ==> table[k] == KeyedSum(s, key, val, k))
  }

  /** Adding one element to the table keeps it the grouping of the extended sequence. */
  lemma TabulatesStep<T>(table: map<string, int>, keys: seq<string>, s: seq<T>, key: T -> string, val: T -> int, x: T)
    requires Tabulates(table, keys, s, key, val)
    ensures var k := key(x);
      Tabulates(table[k := (if k in table then table[k] else 0) + val(x)],
                if k in table then keys else keys + [k], s + [x], key, val)
  {
    var s' := s + [x];
    assert s'[..|s'| - 1] == s;
    var k := key(x);
    if k !in table {
      KeyedSumAbsent(s, key, val, k);
    }
  }

  /** The entries listed in `keys`, summed. */
  function SumOverKeys<T>(keys: seq<string>, s: seq<T>, key: T -> string, val: T -> int): int {
    if keys == [] then 0
    else SumOverKeys(keys[..|keys| - 1], s, key, val) + KeyedSum(s, key, val, keys[|keys| - 1])
  }

  /** Every element's value lands in exactly one entry: the entries sum to the total of `val`. */
  lemma {:induction false} KeyedSumPartition<T>(s: seq<T>, key: T -> string, val: T -> int, keys: seq<string>)
    requires Distinct(keys)
    requires forall k :: k in KeySet(s, key) ==> k in keys
    ensures SumOverKeys(keys, s, key, val) == Sum(s, val)
  {
    if s != [] {
      var p := s[..|s| - 1];
      var x := s[|s| - 1];
      assert forall k :: k in KeySet(p, key) ==> k in KeySet(s, key);
      KeyedSumPartition(p, key, val, keys);
      SumOverKeysStep(keys, s, key, val);
      assert key(x) in KeySet(s, key);
    } else {
      SumOverKeysOfEmpty(keys, s, key, val);
    }
  }

  lemma {:induction false} SumOverKeysOfEmpty<T>(keys: seq<string>, s: seq<T>, key: T -> string, val: T -> int)
    requires s == []
    ensures SumOverKeys(keys, s, key, val) == 0
  {
    if keys != [] {
      SumOverKeysOfEmpty(keys[..|keys| - 1], s, key, val);
    }
  }

  /** Appending one element adds its value to the sum over `keys` once if its key is listed. */
  lemma {:induction false} SumOverKeysStep<T>(keys: seq<string>, s: seq<T>, key: T -> string, val: T -> int)
    requires Distinct(keys) && s != []
    ensures SumOverKeys(keys, s, key, val)
         == SumOverKeys(keys, s[..|s| - 1], key, val) + (if key(s[|s| - 1]) in keys then val(s[|s| - 1]) else 0)
  {
    if keys != [] {
      var ks := keys[..|keys| - 1];
      assert Distinct(ks);
      SumOverKeysStep(ks, s, key, val);
      assert key(s[|s| - 1]) in keys <==> key(s[|s| - 1]) in ks || key(s[|s| - 1]) == keys[|keys| - 1];
    }
  }

  /** All line items of all orders, order by order (`(o.items || []).forEach` inside `orders.forEach`). */
  function AllItems(orders: seq<StoreOrder>): seq<LineItem> {
    if orders == [] then [] else AllItems(orders[..|orders| - 1]) + ItemsOf(orders[|orders| - 1])
  }

  /** One step of the inner `forEach`, stated on the prefixes the loop has processed. */
  lemma TabulatesNext<T>(table: map<string, int>, keys: seq<string>, s: seq<T>, items: seq<T>, j: nat,
                         key: T -> string, val: T -> int)
    requires j < |items|
    requires Tabulates(table, keys, s + items[..j], key, val)
    ensures var k := key(items[j]);
      Tabulates(table[k := (if k in table then table[k] else 0) + val(items[j])],
                if k in table then keys else keys + [k], s + items[..j + 1], key, val)
  {
    TabulatesStep(table, keys, s + items[..j], key, val, items[j]);
    PrefixStep(s, items, j);
  }

  /** One step of a `forEach` over `s` itself. */
  lemma TabulatesPrefixNext<T>(table: map<string, int>, keys: seq<string>, s: seq<T>, j: nat,
                               key: T -> string, val: T -> int)
    requires j < |s|
    requires Tabulates(table, keys, s[..j], key, val)
    ensures var k := key(s[j]);
      Tabulates(table[k := (if k in table then table[k] else 0) + val(s[j])],
                if k in table then keys else keys + [k], s[..j + 1], key, val)
  {
    TabulatesStep(table, keys, s[..j], key, val, s[j]);
    PrefixNext(s, j);
  }

  lemma PrefixNext<T>(s: seq<T>, j: nat)
    requires j < |s|
    ensures s[..j] + [s[j]] == s[..j + 1]
  {
  }

  lemma PrefixStep<T>(s: seq<T>, items: seq<T>, j: nat)
    requires j < |items|
    ensures s + items[..j] + [items[j]] == s + items[..j + 1]
  {
    assert items[..j + 1] == items[..j] + [items[j]];
  }

  /** The inner `forEach`: every item of one order is added to the table. */
  method AddItems(table0: map<string, int>, keys0: seq<string>, ghost s: seq<LineItem>, items: seq<LineItem>,
                  key: LineItem -> string, val: LineItem -> int)
    returns (table: map<string, int>, keys: seq<string>)
    requires Tabulates(table0, keys0, s + items[..0], key, val)
    ensures Tabulates(table, keys, s + items[..|items|], key, val)
  {
    table, keys := table0, keys0;
    var j := 0;
    while j < |items|
      invariant 0 <= j <= |items|
      invariant Tabulates(table, keys, s + items[..j], key, val)
    {
      TabulatesNext(table, keys, s, items, j, key, val);
      var k := key(items[j]);
      table, keys := table[k := (if k in table then table[k] else 0) + val(items[j])],
                     if k in table then keys else keys + [k];
      j := j + 1;
    }
  }

  /** The nested `forEach` loops that group every line item of every order by `key`, summing `val`. */
  method AccumulateItems(orders: seq<StoreOrder>, key: LineItem -> string, val: LineItem -> int)
    returns (table: map<string, int>, keys: seq<string>)
    ensures Distinct(keys) && forall k :: k in keys <==> k in table
    ensures forall k :: k in table <==> k in KeySet(AllItems(orders), key)
    ensures forall k :: k in table ==> table[k] == KeyedSum(AllItems(orders), key, val, k)
  {
    table, keys := map[], [];
    var i := 0;
    while i < |orders|
      invariant 0 <= i <= |orders|
      invariant Tabulates(table, keys, AllItems(orders[..i]), key, val)
    {
      assert orders[..i + 1][..i] == orders[..i];
      var items := ItemsOf(orders[i]);
      assert AllItems(orders[..i]) + items[..0] == AllItems(orders[..i]);
      table, keys := AddItems(table, keys, AllItems(orders[..i]), items, key, val);
      assert items[..|items|] == items;
      i := i + 1;
    }
    assert orders[..i] == orders;
  }
}
