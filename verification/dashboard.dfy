/**
 * The admin dashboard (`AdminDashboard.jsx`): totals of the three stores, the five most recent
 * orders newest first, and the catalog entries of the six products that occur in most line items.
 */
module Dashboard {
  import opened Wrappers
  import opened Seqs
  import opened Records
  import opened Grouping
  import opened Ranking

  datatype Stats = Stats(totalProducts: nat, totalUsers: nat, totalOrders: nat, totalRevenue: int)

  const RecentCount: nat := 5
  const TopCount: nat := 6

  function ComputeStats<U>(products: seq<Product>, users: seq<U>, orders: seq<StoreOrder>): Stats {
    Stats(|products|, |users|, |orders|, TotalRevenue(orders))
  }

  /** Only the amounts of the orders enter the revenue total; a new order adds its amount, and one more order. */
  lemma StatsOfNewOrder<U>(products: seq<Product>, users: seq<U>, orders: seq<StoreOrder>, o: StoreOrder)
    ensures var before, after := ComputeStats(products, users, orders), ComputeStats(products, users, orders + [o]);
      && after.totalOrders == before.totalOrders + 1
      && after.totalRevenue == before.totalRevenue + (if o.amount.Some? then o.amount.value else 0)
      && after.totalProducts == before.totalProducts && after.totalUsers == before.totalUsers
  {
    TotalRevenueAppend(orders, o);
  }

  /** `orders.slice(-5).reverse()`: the last five orders, the most recently stored one first. */
  function RecentOrders(orders: seq<StoreOrder>): (r: seq<StoreOrder>)
    ensures |r| == Min(RecentCount, |orders|)
    ensures forall i :: 0 <= i < |r| ==> r[i] == orders[|orders| - 1 - i]
    ensures orders != [] ==> r[0] == orders[|orders| - 1]
  {
    Reverse(Last(orders, RecentCount))
  }

  // ---------------------------------------------------------------- top products by count

  /** `productCounts[item.id]`: an item without an id is counted under the key "undefined". */
  function CountKey(it: LineItem): string {
    it.id.GetOr("undefined")
  }

  /** Each line item counts once, whatever its quantity. */
  function UnitCount(it: LineItem): int { 1 }

  function CountKeys(orders: seq<StoreOrder>): set<string> {
    KeySet(AllItems(orders), CountKey)
  }

  function ItemCount(orders: seq<StoreOrder>, id: string): int {
    KeyedSum(AllItems(orders), CountKey, UnitCount, id)
  }

  /** The counts depend on the item keys alone: quantities, prices and other fields play no part. */
  lemma {:induction false} CountsReadOnlyKeys(a: seq<LineItem>, b: seq<LineItem>, id: string)
    requires |a| == |b|
    requires forall i :: 0 <= i < |a| ==> CountKey(a[i]) == CountKey(b[i])
    ensures KeyedSum(a, CountKey, UnitCount, id) == KeyedSum(b, CountKey, UnitCount, id)
  {
    if a != [] {
      CountsReadOnlyKeys(a[..|a| - 1], b[..|b| - 1], id);
    }
  }

  /** An order without items leaves every count as it was. */
  lemma CountsSkipOrdersWithoutItems(orders: seq<StoreOrder>, o: StoreOrder, id: string)
    requires o.items.None?
    ensures ItemCount(orders + [o], id) == ItemCount(orders, id)
  {
    assert (orders + [o])[..|orders|] == orders;
    assert ItemsOf(o) == [];
    assert AllItems(orders + [o]) == AllItems(orders) + [] == AllItems(orders);
  }

  lemma {:induction false} SumOfUnits(items: seq<LineItem>)
    ensures Sum(items, UnitCount) == |items|
  {
    if items != [] {
      SumOfUnits(items[..|items| - 1]);
    }
  }

  /** The counts of all keys add up to the number of line items. */
  lemma CountsPartitionItems(orders: seq<StoreOrder>, ids: seq<string>)
    requires Distinct(ids) && forall k :: k in ids <==> k in CountKeys(orders)
    ensures SumOverKeys(ids, AllItems(orders), CountKey, UnitCount) == |AllItems(orders)|
  {
    KeyedSumPartition(AllItems(orders), CountKey, UnitCount, ids);
    SumOfUnits(AllItems(orders));
  }

  /**
   * Lines :48-61: at most six distinct item keys, by non-increasing count, none left out that
   * occurs more often than a listed one.
   */
  method TopProductIds(orders: seq<StoreOrder>) returns (ids: seq<string>)
    ensures |ids| == Min(TopCount, |CountKeys(orders)|)
    ensures Distinct(ids)
    ensures forall i :: 0 <= i < |ids| ==> ids[i] in CountKeys(orders)
    ensures forall i, j :: 0 <= i < j < |ids| ==> ItemCount(orders, ids[i]) >= ItemCount(orders, ids[j])
    ensures forall k, i :: k in CountKeys(orders) && k !in ids && 0 <= i < |ids| ==>
      ItemCount(orders, k) <= ItemCount(orders, ids[i])
  {
    var productCounts, keys := AccumulateItems(orders, CountKey, UnitCount);
    DistinctListsSet(keys, CountKeys(orders));
    var ranked := TopEntries(productCounts, keys, TopCount);
    ids := seq(|ranked|, i requires 0 <= i < |ranked| => ranked[i].0);
    forall k | k !in ids ensures !HasId(ranked, k) {
      forall j | 0 <= j < |ranked| ensures ranked[j].0 != k { assert ids[j] == ranked[j].0; }
    }
  }

  /** `product.id.toString()` is among the top ids. */
  function Among(ids: seq<string>): Product -> bool {
    (p: Product) => p.id in ids
  }

  /**
   * Lines :64-66: the catalog entries whose id is a top id, in catalog order (not rank order),
   * at most six of them.
   */
  function TopCatalogEntries(products: seq<Product>, ids: seq<string>): (r: seq<Product>)
    ensures |r| == Min(TopCount, |Filter(products, Among(ids))|)
    ensures forall p :: p in r ==> p in products && p.id in ids
    ensures |Filter(products, Among(ids))| <= TopCount ==> r == Filter(products, Among(ids))
    ensures r == Filter(products, Among(ids))[..|r|]
  {
    var matching := Filter(products, Among(ids));
    var r := First(matching, TopCount);
    assert forall p :: p in r ==> p in matching by {
      forall p | p in r ensures p in matching {
        var i :| 0 <= i < |r| && r[i] == p;
        assert matching[i] == p;
      }
    }
    r
  }

  /** An entry keeps its catalog position: the shown entries are a subsequence of the catalog. */
  lemma TopCatalogEntriesOfAppend(products: seq<Product>, extra: seq<Product>, ids: seq<string>)
    requires |Filter(products, Among(ids))| >= TopCount
    ensures TopCatalogEntries(products + extra, ids) == TopCatalogEntries(products, ids)
  {
    FilterAppend(products, extra, Among(ids));
  }

  /** `order.customer || order.name || order.userEmail || order.email || "-"`. */
  function CustomerLabel(o: StoreOrder): (shown: string)
    ensures shown != ""
    ensures shown in {o.customer, o.name, o.userEmail, o.email, "-"}
    ensures o.customer != "" ==> shown == o.customer
    ensures o.customer == "" && o.name != "" ==> shown == o.name
    ensures o.customer == "" && o.name == "" && o.userEmail != "" ==> shown == o.userEmail
    ensures o.customer == o.name == o.userEmail == "" && o.email != "" ==> shown == o.email
    ensures o.customer == o.name == o.userEmail == o.email == "" ==> shown == "-"
  {
    if o.customer != "" then o.customer
    else if o.name != "" then o.name
    else if o.userEmail != "" then o.userEmail
    else if o.email != "" then o.email
    else "-"
  }

  // ---------------------------------------------------------------- the page

  class DashboardPage {
    var stats: Stats
    var loading: bool
    var error: Option<string>
    var recentOrders: seq<StoreOrder>
    var topProducts: seq<Product>

    constructor()
      ensures stats == Stats(0, 0, 0, 0) && loading && error.None? && recentOrders == [] && topProducts == []
    {
      stats, loading, error, recentOrders, topProducts := Stats(0, 0, 0, 0), true, None, [], [];
    }

    /**
     * `fetchData`: with `fetched == false` one of the three requests failed with `message`; the
     * error is shown and the data kept. Otherwise every panel is recomputed.
     */
    method FetchData<U>(fetched: bool, message: string, products: seq<Product>, users: seq<U>, orders: seq<StoreOrder>)
      modifies this
      ensures !loading
      ensures !fetched ==>
        error == Some(message) && stats == old(stats) && recentOrders == old(recentOrders) && topProducts == old(topProducts)
      ensures fetched ==>
        error.None? && stats == ComputeStats(products, users, orders) && recentOrders == RecentOrders(orders)
      ensures fetched ==> exists ids ::
        && |ids| == Min(TopCount, |CountKeys(orders)|)
        && Distinct(ids)
        && (forall i :: 0 <= i < |ids| ==> ids[i] in CountKeys(orders))
        && (forall i, j :: 0 <= i < j < |ids| ==> ItemCount(orders, ids[i]) >= ItemCount(orders, ids[j]))
        && (forall k, i :: k in CountKeys(orders) && k !in ids && 0 <= i < |ids| ==>
              ItemCount(orders, k) <= ItemCount(orders, ids[i]))
        && topProducts == TopCatalogEntries(products, ids)
    {
      loading, error := true, None;
      if !fetched {
        error, loading := Some(message), false;
        return;
      }
      stats := ComputeStats(products, users, orders);
      recentOrders := RecentOrders(orders);
      var ids := TopProductIds(orders);
      topProducts := TopCatalogEntries(products, ids);
      loading := false;
    }
  }
}
