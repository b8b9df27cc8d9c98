/**
 * The admin analytics page (`AdminAnalytics.jsx`): a summary of the three stores, revenue and
 * order counts per day for the 30 latest days, and the six products with the most line-item
 * revenue together with their share of that revenue.
 */
module Analytics {
  import opened Wrappers
  import opened Seqs
  import opened Sorting
  import opened Text
  import opened Records
  import opened Grouping
  import opened Ranking

  /** `new Date(s).toISOString().split("T")[0]`: a calendar day, or `None` where the conversion throws. */
  type DayKeyFn = string -> Option<string>

  datatype Summary = Summary(products: nat, users: nat, orders: nat, revenue: int)
  datatype TrendPoint = TrendPoint(date: string, revenue: int, orders: int)
  datatype TopProduct = TopProduct(id: string, name: string, revenue: int, percent: real)

  const TrendDays: nat := 30
  const TopCount: nat := 6

  // ---------------------------------------------------------------- summary

  function ComputeSummary<P, U>(products: seq<P>, users: seq<U>, orders: seq<StoreOrder>): Summary {
    Summary(|products|, |users|, |orders|, TotalRevenue(orders))
  }

  /** A new order raises the order count by one and the revenue by its amount (0 when absent); the other counts stay. */
  lemma SummaryOfNewOrder<P, U>(products: seq<P>, users: seq<U>, orders: seq<StoreOrder>, o: StoreOrder)
    ensures var before, after := ComputeSummary(products, users, orders), ComputeSummary(products, users, orders + [o]);
      && after.orders == before.orders + 1
      && after.revenue == before.revenue + (if o.amount.Some? then o.amount.value else 0)
      && after.products == before.products && after.users == before.users
  {
    TotalRevenueAppend(orders, o);
  }

  // ---------------------------------------------------------------- per-day trend

  /** The revenue an order contributes to its day: `Number(o.amount) || Number(o.total) || 0`. */
  function TrendRevenue(o: StoreOrder): int {
    NumOr(o.amount, NumOr(o.total, 0))
  }

  /** An amount that is present and nonzero wins; otherwise a present nonzero total; otherwise 0. */
  lemma TrendRevenueCases(o: StoreOrder)
    ensures o.amount.Some? && o.amount.value != 0 ==> TrendRevenue(o) == o.amount.value
    ensures (o.amount == None || o.amount == Some(0)) && o.total.Some? && o.total.value != 0 ==> TrendRevenue(o) == o.total.value
    ensures (o.amount == None || o.amount == Some(0)) && (o.total == None || o.total == Some(0)) ==> TrendRevenue(o) == 0
  {
  }

  /** Every order counts once towards its day. */
  function One(o: StoreOrder): int { 1 }

  /** The day key of an order, once every date is known to convert. */
  function DayOf(dayKey: DayKeyFn): StoreOrder -> string {
    (o: StoreOrder) => dayKey(o.date).GetOr("")
  }

  predicate AllDatesValid(dayKey: DayKeyFn, orders: seq<StoreOrder>) {
    forall i :: 0 <= i < |orders| ==> dayKey(orders[i].date).Some?
  }

  /** The day keys that occur among the orders. */
  function Days(dayKey: DayKeyFn, orders: seq<StoreOrder>): set<string> {
    KeySet(orders, DayOf(dayKey))
  }

  function DayRevenue(dayKey: DayKeyFn, orders: seq<StoreOrder>, d: string): int {
    KeyedSum(orders, DayOf(dayKey), TrendRevenue, d)
  }

  function DayCount(dayKey: DayKeyFn, orders: seq<StoreOrder>, d: string): int {
    KeyedSum(orders, DayOf(dayKey), One, d)
  }

  lemma {:induction false} SumOfOnes(orders: seq<StoreOrder>)
    ensures Sum(orders, One) == |orders|
  {
    if orders != [] {
      SumOfOnes(orders[..|orders| - 1]);
    }
  }

  /** Each order adds exactly one to its day, so the day counts add up to the number of orders. */
  lemma DayCountsPartitionOrders(dayKey: DayKeyFn, orders: seq<StoreOrder>, days: seq<string>)
    requires Distinct(days) && forall d :: d in days <==> d in Days(dayKey, orders)
    ensures SumOverKeys(days, orders, DayOf(dayKey), One) == |orders|
  {
    KeyedSumPartition(orders, DayOf(dayKey), One, days);
    SumOfOnes(orders);
  }

  /** The per-day revenues add up to the revenue of all orders. */
  lemma DayRevenuesPartitionRevenue(dayKey: DayKeyFn, orders: seq<StoreOrder>, days: seq<string>)
    requires Distinct(days) && forall d :: d in days <==> d in Days(dayKey, orders)
    ensures SumOverKeys(days, orders, DayOf(dayKey), TrendRevenue) == Sum(orders, TrendRevenue)
  {
    KeyedSumPartition(orders, DayOf(dayKey), TrendRevenue, days);
  }

  /** `byDate` and `byDateCount`, with their shared key order `days`, group `orders` by day. */
  ghost predicate DayTables(byDate: map<string, int>, byDateCount: map<string, int>, days: seq<string>,
                            orders: seq<StoreOrder>, dayKey: DayKeyFn) {
    && AllDatesValid(dayKey, orders)
    && Tabulates(byDate, days, orders, DayOf(dayKey), TrendRevenue)
    && Tabulates(byDateCount, days, orders, DayOf(dayKey), One)
  }

  /** One iteration of the day loop, for an order whose date converts to `d`. */
  lemma DayTablesNext(byDate: map<string, int>, byDateCount: map<string, int>, days: seq<string>,
                      orders: seq<StoreOrder>, dayKey: DayKeyFn, i: nat, d: string)
    requires i < |orders| && dayKey(orders[i].date) == Some(d)
    requires DayTables(byDate, byDateCount, days, orders[..i], dayKey)
    ensures DayTables(byDate[d := (if d in byDate then byDate[d] else 0) + TrendRevenue(orders[i])],
                      byDateCount[d := (if d in byDateCount then byDateCount[d] else 0) + 1],
                      if d in byDate then days else days + [d], orders[..i + 1], dayKey)
  {
    DayTableNext(byDate, days, orders, dayKey, TrendRevenue, i, d);
    DayTableNext(byDateCount, days, orders, dayKey, One, i, d);
    assert d in byDate <==> d in byDateCount;
    AllDatesValidNext(dayKey, orders, i);
  }

  lemma DayTableNext(table: map<string, int>, days: seq<string>, orders: seq<StoreOrder>, dayKey: DayKeyFn,
                     val: StoreOrder -> int, i: nat, d: string)
    requires i < |orders| && dayKey(orders[i].date) == Some(d)
    requires Tabulates(table, days, orders[..i], DayOf(dayKey), val)
    ensures Tabulates(table[d := (if d in table then table[d] else 0) + val(orders[i])],
                      if d in table then days else days + [d], orders[..i + 1], DayOf(dayKey), val)
  {
    assert DayOf(dayKey)(orders[i]) == d;
    TabulatesPrefixNext(table, days, orders, i, DayOf(dayKey), val);
  }

  lemma AllDatesValidNext(dayKey: DayKeyFn, orders: seq<StoreOrder>, i: nat)
    requires i < |orders| && dayKey(orders[i].date).Some?
    requires AllDatesValid(dayKey, orders[..i])
    ensures AllDatesValid(dayKey, orders[..i + 1])
  {
    var done := orders[..i + 1];
    forall j | 0 <= j < |done| ensures dayKey(done[j].date).Some? {
      if j < i {
        assert done[j] == orders[..i][j];
      }
    }
  }

  /**
   * The `forEach` that fills `byDate` and `byDateCount`. It stops with `ok == false` at the first
   * date that does not convert, which is where the page's `try` block is left.
   */
  method AggregateByDay(orders: seq<StoreOrder>, dayKey: DayKeyFn)
    returns (ok: bool, byDate: map<string, int>, byDateCount: map<string, int>, days: seq<string>)
    ensures ok <==> AllDatesValid(dayKey, orders)
    ensures ok ==> DayTables(byDate, byDateCount, days, orders, dayKey)
  {
    byDate, byDateCount, days := map[], map[], [];
    var i := 0;
    while i < |orders|
      invariant 0 <= i <= |orders|
      invariant DayTables(byDate, byDateCount, days, orders[..i], dayKey)
    {
      var o := orders[i];
      var d := dayKey(o.date);
      if d.None? {
        return false, byDate, byDateCount, days;
      }
      var k := d.value;
      DayTablesNext(byDate, byDateCount, days, orders, dayKey, i, k);
      byDate, byDateCount, days :=
        byDate[k := (if k in byDate then byDate[k] else 0) + TrendRevenue(o)],
        byDateCount[k := (if k in byDateCount then byDateCount[k] else 0) + 1],
        if k in byDate then days else days + [k];
      i := i + 1;
    }
    assert orders[..i] == orders;
    ok := true;
  }

  /** The trend lists date `d`. */
  predicate HasDate(t: seq<TrendPoint>, d: string) {
    exists i :: 0 <= i < |t| && t[i].date == d
  }

  /** The dates of a trend over the day set `D`: at most 30, strictly ascending, and the latest ones. */
  ghost predicate TrendDatesOk(t: seq<TrendPoint>, D: set<string>) {
    && |t| == Min(TrendDays, |D|)
    && (forall i, j :: 0 <= i < j < |t| ==> LexLe(t[i].date, t[j].date) && t[i].date != t[j].date)
    && (forall d, i :: d in D && !HasDate(t, d) && 0 <= i < |t| ==> LexLe(d, t[i].date))
  }

  /** Every point of a trend carries an occurring day, its revenue and its order count. */
  ghost predicate TrendValuesOk(dayKey: DayKeyFn, orders: seq<StoreOrder>, t: seq<TrendPoint>) {
    forall i :: 0 <= i < |t| ==>
      && t[i].date in Days(dayKey, orders)
      && t[i].revenue == DayRevenue(dayKey, orders, t[i].date)
      && t[i].orders == DayCount(dayKey, orders, t[i].date)
  }

  /**
   * What the page's trend promises: at most 30 days, strictly ascending and without repeats,
   * each with its revenue and order count, and no day left out that is later than a listed one.
   */
  ghost predicate IsTrend(dayKey: DayKeyFn, orders: seq<StoreOrder>, t: seq<TrendPoint>) {
    TrendDatesOk(t, Days(dayKey, orders)) && TrendValuesOk(dayKey, orders, t)
  }

  /** `days.map((d) => ({ date: d, revenue: byDate[d], orders: byDateCount[d] || 0 }))`. */
  function TrendFrom(byDate: map<string, int>, byDateCount: map<string, int>, ds: seq<string>): (t: seq<TrendPoint>)
    requires forall d :: d in ds ==> d in byDate
    ensures |t| == |ds|
    ensures forall i :: 0 <= i < |ds| ==> t[i].date == ds[i] && t[i].revenue == byDate[ds[i]]
    ensures forall i :: 0 <= i < |ds| ==> t[i].orders == if ds[i] in byDateCount then byDateCount[ds[i]] else 0
  {
    seq(|ds|, i requires 0 <= i < |ds| =>
      TrendPoint(ds[i], byDate[ds[i]], if ds[i] in byDateCount then byDateCount[ds[i]] else 0))
  }

  /** The last `n` of a strictly sorted list are strictly ascending. */
  lemma LastAscending(sorted: seq<string>, n: nat)
    requires Sorted(sorted, LexLe) && Distinct(sorted)
    ensures var last := Last(sorted, n);
      forall i, j :: 0 <= i < j < |last| ==> LexLe(last[i], last[j]) && last[i] != last[j]
  {
    var last := Last(sorted, n);
    var cut := |sorted| - |last|;
    forall i, j | 0 <= i < j < |last| ensures LexLe(last[i], last[j]) && last[i] != last[j] {
      SortedDistinctIsStrict(sorted, cut + i, cut + j);
    }
  }

  /** What the last `n` of a sorted list leave out is below everything they keep. */
  lemma LastAreGreatest(sorted: seq<string>, n: nat)
    requires Sorted(sorted, LexLe)
    ensures var last := Last(sorted, n);
      forall d, i :: d in sorted && d !in last && 0 <= i < |last| ==> LexLe(d, last[i])
  {
    var last := Last(sorted, n);
    var cut := |sorted| - |last|;
    forall d, i | d in sorted && d !in last && 0 <= i < |last| ensures LexLe(d, last[i]) {
      var p :| 0 <= p < |sorted| && sorted[p] == d;
      assert p < cut by {
        assert forall q :: cut <= q < |sorted| ==> sorted[q] in last by {
          forall q | cut <= q < |sorted| ensures sorted[q] in last { assert last[q - cut] == sorted[q]; }
        }
      }
      assert last[i] == sorted[cut + i];
    }
  }

  /** The dates the trend takes from a sorted, duplicate-free list of the days `D`. */
  lemma TrendDatesOfSorted(t: seq<TrendPoint>, sorted: seq<string>, D: set<string>)
    requires Sorted(sorted, LexLe) && Distinct(sorted)
    requires forall d :: d in sorted <==> d in D
    requires |t| == |Last(sorted, TrendDays)|
    requires forall i :: 0 <= i < |t| ==> t[i].date == Last(sorted, TrendDays)[i]
    ensures TrendDatesOk(t, D)
  {
    var last := Last(sorted, TrendDays);
    DistinctListsSet(sorted, D);
    LastAscending(sorted, TrendDays);
    LastAreGreatest(sorted, TrendDays);
    forall d | d in last ensures HasDate(t, d) {
      var i :| 0 <= i < |last| && last[i] == d;
      assert t[i].date == d;
    }
  }

  /** The values the trend reads from the grouped tables. */
  lemma TrendValuesOfTables(dayKey: DayKeyFn, orders: seq<StoreOrder>, byDate: map<string, int>,
                            byDateCount: map<string, int>, days: seq<string>, ds: seq<string>)
    requires DayTables(byDate, byDateCount, days, orders, dayKey)
    requires forall d :: d in ds ==> d in days
    ensures forall d :: d in ds ==> d in byDate
    ensures TrendValuesOk(dayKey, orders, TrendFrom(byDate, byDateCount, ds))
  {
  }

  /** Sorting the grouped days and keeping the last 30 yields the trend. */
  lemma TrendOfSortedDays(dayKey: DayKeyFn, orders: seq<StoreOrder>, byDate: map<string, int>,
                          byDateCount: map<string, int>, days: seq<string>, sorted: seq<string>)
    requires DayTables(byDate, byDateCount, days, orders, dayKey)
    requires Sorted(sorted, LexLe) && multiset(sorted) == multiset(days)
    ensures forall d :: d in sorted ==> d in byDate
    ensures IsTrend(dayKey, orders, TrendFrom(byDate, byDateCount, Last(sorted, TrendDays)))
  {
    forall d ensures d in sorted <==> d in days {
      assert d in sorted <==> d in multiset(sorted);
    }
    DistinctPermutation(days, sorted);
    var last := Last(sorted, TrendDays);
    TrendValuesOfTables(dayKey, orders, byDate, byDateCount, days, last);
    TrendDatesOfSorted(TrendFrom(byDate, byDateCount, last), sorted, Days(dayKey, orders));
  }

  /** Lines :41-51: the trend, or `None` when some order date does not convert. */
  method ComputeTrend(orders: seq<StoreOrder>, dayKey: DayKeyFn) returns (trend: Option<seq<TrendPoint>>)
    ensures trend.Some? <==> AllDatesValid(dayKey, orders)
    ensures trend.Some? ==> IsTrend(dayKey, orders, trend.value)
  {
    var ok, byDate, byDateCount, days := AggregateByDay(orders, dayKey);
    if !ok {
      return None;
    }
    LexLeIsTotalPreorder();
    var sorted := SortedCopy(days, LexLe);
    TrendOfSortedDays(dayKey, orders, byDate, byDateCount, days, sorted);
    trend := Some(TrendFrom(byDate, byDateCount, Last(sorted, TrendDays)));
  }

  // ---------------------------------------------------------------- top products

  /** `it.id?.toString() ?? String(it.productId ?? it._id ?? "")`. */
  function ItemKey(it: LineItem): string {
    if it.id.Some? then it.id.value
    else if it.productId.Some? then it.productId.value
    else it.dbId.GetOr("")
  }

  /** `(Number(it.price) || 0) * (Number(it.quantity) || 1)`. */
  function ItemRevenue(it: LineItem): int {
    NumOr(it.price, 0) * NumOr(it.quantity, 1)
  }

  /** A missing or zero quantity counts as one unit, a missing or zero price as nothing. */
  lemma ItemRevenueCases(it: LineItem)
    ensures (it.quantity == None || it.quantity == Some(0)) ==> ItemRevenue(it) == NumOr(it.price, 0)
    ensures (it.price == None || it.price == Some(0)) ==> ItemRevenue(it) == 0
    ensures it.price.Some? && it.quantity.Some? && it.quantity.value != 0 ==> ItemRevenue(it) == it.price.value * it.quantity.value
  {
  }

  /** The product keys that occur in some line item. */
  function ProductKeys(orders: seq<StoreOrder>): set<string> {
    KeySet(AllItems(orders), ItemKey)
  }

  function ProductRevenue(orders: seq<StoreOrder>, id: string): int {
    KeyedSum(AllItems(orders), ItemKey, ItemRevenue, id)
  }

  /** The per-product revenues add up to the revenue of all line items. */
  lemma ProductRevenuesPartition(orders: seq<StoreOrder>, ids: seq<string>)
    requires Distinct(ids) && forall k :: k in ids <==> k in ProductKeys(orders)
    ensures SumOverKeys(ids, AllItems(orders), ItemKey, ItemRevenue) == Sum(AllItems(orders), ItemRevenue)
  {
    KeyedSumPartition(AllItems(orders), ItemKey, ItemRevenue, ids);
  }

  /** Index `i` holds the first product whose id is `id`. */
  predicate FirstWithId(products: seq<Product>, id: string, i: int) {
    0 <= i < |products| && products[i].id == id && forall j :: 0 <= j < i ==> products[j].id != id
  }

  /** `products.find((p) => p.id.toString() === id)`. */
  function FindById(products: seq<Product>, id: string): (r: Option<Product>)
    ensures r.None? <==> forall i :: 0 <= i < |products| ==> products[i].id != id
    ensures r.Some? ==> exists i :: FirstWithId(products, id, i) && products[i] == r.value
  {
    if products == [] then None
    else if products[0].id == id then
      assert FirstWithId(products, id, 0);
      Some(products[0])
    else
      var r := FindById(products[1..], id);
      assert forall i :: 0 <= i < |products| - 1 ==> products[1..][i] == products[i + 1];
      if r.Some? then
        var i :| FirstWithId(products[1..], id, i) && products[1..][i] == r.value;
        assert FirstWithId(products, id, i + 1);
        r
      else r
  }

  /** `prod?.name || \`Product ${id}\``. */
  function ProductName(products: seq<Product>, id: string): (name: string)
    ensures forall i :: FirstWithId(products, id, i) && products[i].name != "" ==> name == products[i].name
    ensures forall i :: FirstWithId(products, id, i) && products[i].name == "" ==> name == "Product " + id
    ensures (forall i :: 0 <= i < |products| ==> products[i].id != id) ==> name == "Product " + id
  {
    var found := FindById(products, id);
    if found.Some? && found.value.name != "" then found.value.name else "Product " + id
  }

  datatype RankedProduct = RankedProduct(id: string, name: string, revenue: int)

  /** `topProducts.map(...)` adding the catalog name. */
  function WithNames(products: seq<Product>, ranked: seq<Entry>): (r: seq<RankedProduct>)
    ensures |r| == |ranked|
    ensures forall i :: 0 <= i < |r| ==>
      r[i].id == ranked[i].0 && r[i].revenue == ranked[i].1 && r[i].name == ProductName(products, ranked[i].0)
  {
    seq(|ranked|, i requires 0 <= i < |ranked| =>
      RankedProduct(ranked[i].0, ProductName(products, ranked[i].0), ranked[i].1))
  }

  function RankedRevenue(p: RankedProduct): int { p.revenue }
  function TopRevenue(p: TopProduct): int { p.revenue }

  /** `reduce((s, p) => s + p.revenue, 0) || 1`. */
  function Divisor(subtotal: int): int {
    if subtotal == 0 then 1 else subtotal
  }

  /** `map((p) => ({ ...p, percent: (p.revenue / totalTopRevenue) * 100 }))`. */
  function WithPercents(ps: seq<RankedProduct>): (r: seq<TopProduct>)
    ensures |r| == |ps|
    ensures forall i :: 0 <= i < |r| ==> r[i].id == ps[i].id && r[i].name == ps[i].name && r[i].revenue == ps[i].revenue
    ensures Sum(r, TopRevenue) == Sum(ps, RankedRevenue)
    ensures forall i :: 0 <= i < |r| ==>
      r[i].percent == r[i].revenue as real / Divisor(Sum(r, TopRevenue)) as real * 100.0
  {
    var d := Divisor(Sum(ps, RankedRevenue));
    var r := seq(|ps|, i requires 0 <= i < |ps| =>
      TopProduct(ps[i].id, ps[i].name, ps[i].revenue, ps[i].revenue as real / d as real * 100.0));
    SumPointwise(r, TopRevenue, ps, RankedRevenue);
    r
  }

  /** The sum of the percents. */
  function PercentTotal(ps: seq<TopProduct>): real {
    if ps == [] then 0.0 else PercentTotal(ps[..|ps| - 1]) + ps[|ps| - 1].percent
  }

  lemma {:induction false} PercentTotalScaled(ps: seq<TopProduct>, d: int)
    requires d != 0
    requires forall i :: 0 <= i < |ps| ==> ps[i].percent == ps[i].revenue as real / d as real * 100.0
    ensures PercentTotal(ps) == Sum(ps, TopRevenue) as real / d as real * 100.0
  {
    if ps != [] {
      var init := ps[..|ps| - 1];
      PercentTotalScaled(init, d);
      var a, b := Sum(init, TopRevenue) as real, ps[|ps| - 1].revenue as real;
      assert a / d as real * 100.0 + b / d as real * 100.0 == (a + b) / d as real * 100.0;
    }
  }

  /** A whole as a share of itself is 100 percent. */
  lemma ShareOfWhole(t: real)
    requires t != 0.0
    ensures t / t * 100.0 == 100.0
  {
  }

  /** Dividing by the fallback divisor 1 leaves the value unchanged. */
  lemma ShareOverOne(a: real, d: real)
    requires d == 1.0
    ensures a / d * 100.0 == a * 100.0
  {
  }

  /** With a nonzero subtotal the shares add up to 100 percent. */
  lemma PercentsSumTo100(ps: seq<TopProduct>)
    requires Sum(ps, TopRevenue) != 0
    requires forall i :: 0 <= i < |ps| ==>
      ps[i].percent == ps[i].revenue as real / Divisor(Sum(ps, TopRevenue)) as real * 100.0
    ensures PercentTotal(ps) == 100.0
  {
    var total := Sum(ps, TopRevenue);
    PercentTotalScaled(ps, total);
    ShareOfWhole(total as real);
  }

  /** With a zero subtotal the divisor is 1, so each share is the revenue times 100. */
  lemma ZeroSubtotalPercents(ps: seq<TopProduct>, i: int)
    requires Sum(ps, TopRevenue) == 0 && 0 <= i < |ps|
    requires ps[i].percent == ps[i].revenue as real / Divisor(Sum(ps, TopRevenue)) as real * 100.0
    ensures ps[i].percent == ps[i].revenue as real * 100.0
  {
    ShareOverOne(ps[i].revenue as real, Divisor(Sum(ps, TopRevenue)) as real);
  }

  predicate Listed(top: seq<TopProduct>, id: string) {
    exists i :: 0 <= i < |top| && top[i].id == id
  }

  /**
   * What the page's top-products list promises: at most six distinct product keys with their
   * revenue, non-increasing, no unlisted key earning more than a listed one, the catalog name,
   * and the share of the listed revenue.
   */
  ghost predicate IsTopProducts(products: seq<Product>, orders: seq<StoreOrder>, top: seq<TopProduct>) {
    && |top| == Min(TopCount, |ProductKeys(orders)|)
    && (forall i :: 0 <= i < |top| ==>
          && top[i].id in ProductKeys(orders)
          && top[i].revenue == ProductRevenue(orders, top[i].id)
          && top[i].name == ProductName(products, top[i].id)
          && top[i].percent == top[i].revenue as real / Divisor(Sum(top, TopRevenue)) as real * 100.0)
    && (forall i, j :: 0 <= i < j < |top| ==> top[i].id != top[j].id && top[i].revenue >= top[j].revenue)
    && (forall k, i :: k in ProductKeys(orders) && !Listed(top, k) && 0 <= i < |top| ==>
          ProductRevenue(orders, k) <= top[i].revenue)
  }

  /** Lines :54-74. */
  method ComputeTopProducts(products: seq<Product>, orders: seq<StoreOrder>) returns (top: seq<TopProduct>)
    ensures IsTopProducts(products, orders, top)
  {
    var productRevenue, keys := AccumulateItems(orders, ItemKey, ItemRevenue);
    DistinctListsSet(keys, ProductKeys(orders));
    var ranked := TopEntries(productRevenue, keys, TopCount);
    top := WithPercents(WithNames(products, ranked));
    forall k, i | k in ProductKeys(orders) && !Listed(top, k) && 0 <= i < |top|
      ensures ProductRevenue(orders, k) <= top[i].revenue
    {
      assert !HasId(ranked, k) by {
        forall j | 0 <= j < |ranked| ensures ranked[j].0 != k { assert top[j].id == ranked[j].0; }
      }
    }
  }

  // ---------------------------------------------------------------- the page

  /** The page's state: the summary cards, the trend chart and the top-products chart. */
  class AnalyticsPage {
    var summary: Summary
    var ordersTrend: seq<TrendPoint>
    var topProducts: seq<TopProduct>

    constructor()
      ensures summary == Summary(0, 0, 0, 0) && ordersTrend == [] && topProducts == []
    {
      summary, ordersTrend, topProducts := Summary(0, 0, 0, 0), [], [];
    }

    /**
     * `fetchData` after the three stores answered with `products`, `users` and `orders`
     * (`fetched == false`: a request failed and nothing is set). The summary is set first; a
     * date that does not convert abandons the rest, so the two charts keep their old data.
     */
    method FetchData<U>(fetched: bool, products: seq<Product>, users: seq<U>, orders: seq<StoreOrder>, dayKey: DayKeyFn)
      modifies this
      ensures !fetched ==> summary == old(summary) && ordersTrend == old(ordersTrend) && topProducts == old(topProducts)
      ensures fetched ==> summary == ComputeSummary(products, users, orders)
      ensures fetched && AllDatesValid(dayKey, orders) ==>
        IsTrend(dayKey, orders, ordersTrend) && IsTopProducts(products, orders, topProducts)
      ensures fetched && !AllDatesValid(dayKey, orders) ==>
        ordersTrend == old(ordersTrend) && topProducts == old(topProducts)
    {
      if !fetched {
        return;
      }
      summary := ComputeSummary(products, users, orders);
      var trend := ComputeTrend(orders, dayKey);
      if trend.None? {
        return;
      }
      ordersTrend := trend.value;
      topProducts := ComputeTopProducts(products, orders);
    }
  }
}
