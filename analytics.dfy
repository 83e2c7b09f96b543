/**
 * The analytics page (`GET /admin/analytics` in routes/admin.js): the
 * today / week / month / year buckets of revenue, orders and items, and
 * the per-product tallies of the year and of today that `getTop` ranks.
 */
module Analytics {
  import opened Wrappers
  import opened Store
  import Seqs
  import opened Ranking
  import Admin

  /** A `sale_items` row as the analytics query returns it, with its product's name when it has one. */
  datatype FetchedItem = FetchedItem(productId: int, quantity: int, productName: Option<string>, priceAtSale: Option<real>)

  /** A sale of the year with its items. */
  datatype FetchedSale = FetchedSale(sale: Sale, items: seq<FetchedItem>)

  datatype Bucket = Bucket(revenue: real, orders: int, items: int)

  /** The `metrics` object. */
  datatype Metrics = Metrics(today: Bucket, week: Bucket, month: Bucket, year: Bucket)

  const EmptyBucket := Bucket(0.0, 0, 0)

  /** The name a tally entry gets when the item has no product. */
  const UnknownName := "Unknown"

  /** The period every fetched sale belongs to: the year the query selected. */
  const Always: int -> bool := (t: int) => true

  /**
   * The join of one stored item row with its product, with the columns an
   * analytics query that selects `price_at_sale` returns.
   */
  function FetchItem(row: SaleItem, products: map<int, Product>): FetchedItem
  {
    FetchedItem(row.productId, row.quantity,
                if row.productId in products then Some(products[row.productId].name) else None,
                Some(row.priceAtSale))
  }

  /**
   * The same join with the columns the query as written selects
   * (`quantity, product_id, products(name)`): no `price_at_sale`.
   */
  function FetchItemAsWritten(row: SaleItem, products: map<int, Product>): FetchedItem
  {
    FetchedItem(row.productId, row.quantity,
                if row.productId in products then Some(products[row.productId].name) else None,
                None)
  }

  /**
   * A sale's total for the buckets: base + surcharge (each NULL counting
   * as 0), or the legacy `total` (or 0) when that sum is 0.
   */
  function SaleTotal(s: Sale): real
  {
    var sum := Or(s.totalBase, 0.0) + Or(s.totalSurcharge, 0.0);
    if sum != 0.0 then sum else Or(s.total, 0.0)
  }

  /**
   * The analytics total falls back on the sum: base + surcharge when that
   * is not 0, else the legacy `total` (or 0). A row without base or
   * surcharge counts its `total`.
   */
  lemma SaleTotalFallback(s: Sale)
    ensures Or(s.totalBase, 0.0) + Or(s.totalSurcharge, 0.0) != 0.0 ==>
      SaleTotal(s) == Or(s.totalBase, 0.0) + Or(s.totalSurcharge, 0.0)
    ensures Or(s.totalBase, 0.0) + Or(s.totalSurcharge, 0.0) == 0.0 ==> SaleTotal(s) == Or(s.total, 0.0)
    ensures s.totalBase.Some? && s.totalSurcharge.Some? && s.totalBase.value + s.totalSurcharge.value != 0.0 ==>
      SaleTotal(s) == s.totalBase.value + s.totalSurcharge.value
    ensures s.totalBase.None? && s.totalSurcharge.None? ==> SaleTotal(s) == Or(s.total, 0.0)
  {
  }

  /**
   * The dashboard and the analytics page count a legacy row differently:
   * the dashboard falls back on the base alone, the analytics page on the
   * sum of base and surcharge.
   */
  lemma DashboardAndAnalyticsDisagree()
    ensures var s := Sale(1, 1, Some(0.0), Some(5.0), Some(100.0), 0);
      Admin.DashboardAmount(s) == 105.0 && SaleTotal(s) == 5.0
  {
  }

  /** Σ of the item quantities of one sale. */
  function ItemCount(items: seq<FetchedItem>): int
  {
    if items == [] then 0 else ItemCount(items[..|items| - 1]) + items[|items| - 1].quantity
  }

  /** `updateMetric(key)` for one sale. */
  function AddSale(b: Bucket, total: real, itemCount: int): Bucket
  {
    Bucket(b.revenue + total, b.orders + 1, b.items + itemCount)
  }

  /** One sale into the bucket of a period: counted when its date is in the period. */
  function Step(b: Bucket, s: FetchedSale, inPeriod: int -> bool): Bucket
  {
    if inPeriod(s.sale.createdAt) then AddSale(b, SaleTotal(s.sale), ItemCount(s.items)) else b
  }

  /** The bucket of one period after folding the sales, in order, whose date `inPeriod` accepts. */
  function BucketOf(sales: seq<FetchedSale>, inPeriod: int -> bool): Bucket
  {
    if sales == [] then EmptyBucket else Step(BucketOf(sales[..|sales| - 1], inPeriod), sales[|sales| - 1], inPeriod)
  }

  /** All four buckets: the date predicates stand for `isSameDay`, `isSameWeek`, `isSameMonth` against now. */
  function MetricsOf(sales: seq<FetchedSale>, day: int -> bool, week: int -> bool, month: int -> bool): Metrics
  {
    Metrics(BucketOf(sales, day), BucketOf(sales, week), BucketOf(sales, month), BucketOf(sales, Always))
  }

  /** The `filter` callback of the today pass, for any period. */
  function InPeriod(inPeriod: int -> bool): FetchedSale -> bool
  {
    (s: FetchedSale) => inPeriod(s.sale.createdAt)
  }

  /** The fetched sales dated in a period, in fetched order. */
  function PeriodSales(sales: seq<FetchedSale>, inPeriod: int -> bool): seq<FetchedSale>
  {
    Seqs.Filter(sales, InPeriod(inPeriod))
  }

  /** Index of the entry for product `pid` in a tally, or its length when there is none. */
  function IndexOf(t: seq<TopEntry>, pid: int): (k: nat)
    ensures k <= |t|
    ensures k < |t| ==> t[k].productId == pid
    ensures forall i :: 0 <= i < k ==> t[i].productId != pid
  {
    if t == [] || t[0].productId == pid then 0 else 1 + IndexOf(t[1..], pid)
  }

  /** `i.products ? i.products.name : "Unknown"`. */
  function NameOf(i: FetchedItem): string
  {
    i.productName.GetOr(UnknownName)
  }

  /** `quantity × (price_at_sale || 0)`. */
  function ItemRevenue(i: FetchedItem): real
  {
    (i.quantity as real) * Or(i.priceAtSale, 0.0)
  }

  /**
   * One item into a tally: the entry of its product (created with the
   * item's name and zero counts the first time) gains its quantity and,
   * for the year tally, its revenue. The today tally has no revenue; its
   * entries keep 0 there.
   */
  function AddItem(t: seq<TopEntry>, i: FetchedItem, withRevenue: bool): seq<TopEntry>
  {
    var k := IndexOf(t, i.productId);
    var revenue := if withRevenue then ItemRevenue(i) else 0.0;
    if k < |t| then t[k := t[k].(sold := t[k].sold + i.quantity, revenue := t[k].revenue + revenue)]
    else t + [TopEntry(i.productId, NameOf(i), i.quantity, revenue)]
  }

  /** The items of one sale into a tally, in order. */
  function AddItems(t: seq<TopEntry>, items: seq<FetchedItem>, withRevenue: bool): seq<TopEntry>
  {
    if items == [] then t else AddItem(AddItems(t, items[..|items| - 1], withRevenue), items[|items| - 1], withRevenue)
  }

  /** The tally of every item of the given sales, in order. */
  function Tally(sales: seq<FetchedSale>, withRevenue: bool): seq<TopEntry>
  {
    if sales == [] then [] else AddItems(Tally(sales[..|sales| - 1], withRevenue), sales[|sales| - 1].items, withRevenue)
  }

  /**
   * `GET /admin/analytics` once the sales of the year (newest first) are
   * fetched; `None` is a failed read, which leaves everything at zero.
   * One pass over the sales updates the buckets and the year tally; a
   * second pass over the sales of today builds the today tally; both
   * tallies are then ranked by `getTop`.
   */
  method Analytics(salesYear: Option<seq<FetchedSale>>, day: int -> bool, week: int -> bool, month: int -> bool)
    returns (metrics: Metrics, topToday: seq<TopEntry>, topYear: seq<TopEntry>)
    ensures var sales := if salesYear.None? then [] else salesYear.value;
      && metrics == MetricsOf(sales, day, week, month)
      && topYear == GetTop(Tally(sales, true))
      && topToday == GetTop(Tally(PeriodSales(sales, day), false))
  {
    var sales := if salesYear.None? then [] else salesYear.value;
    var yearTally;
    metrics, yearTally := YearPass(sales, day, week, month);
    var todayTally := TodayPass(PeriodSales(sales, day));
    topToday, topYear := GetTop(todayTally), GetTop(yearTally);
  }

  /** The `salesYear.forEach` pass: the four buckets and the year tally. */
  method YearPass(sales: seq<FetchedSale>, day: int -> bool, week: int -> bool, month: int -> bool)
    returns (metrics: Metrics, tally: seq<TopEntry>)
    ensures metrics == MetricsOf(sales, day, week, month)
    ensures tally == Tally(sales, true)
  {
    metrics := Metrics(EmptyBucket, EmptyBucket, EmptyBucket, EmptyBucket);
    tally := [];
    var n := 0;
    while n < |sales|
      invariant n <= |sales|
      invariant metrics == MetricsOf(sales[..n], day, week, month)
      invariant tally == Tally(sales[..n], true)
    {
      assert sales[..n + 1][..n] == sales[..n];
      metrics := UpdateMetrics(metrics, sales[n], day, week, month);
      tally := TallyItems(tally, sales[n].items, true);
      n := n + 1;
    }
    assert sales[..n] == sales;
  }

  /** `updateMetric("year")`, then month, week and today when the sale's date is in them. */
  method UpdateMetrics(metrics: Metrics, s: FetchedSale, day: int -> bool, week: int -> bool, month: int -> bool)
    returns (m: Metrics)
    ensures m == Metrics(Step(metrics.today, s, day), Step(metrics.week, s, week),
                         Step(metrics.month, s, month), Step(metrics.year, s, Always))
  {
    var total := SaleTotal(s.sale);
    var itemCount := ItemCount(s.items);
    m := metrics.(year := AddSale(metrics.year, total, itemCount));
    if month(s.sale.createdAt) {
      m := m.(month := AddSale(m.month, total, itemCount));
    }
    if week(s.sale.createdAt) {
      m := m.(week := AddSale(m.week, total, itemCount));
    }
    if day(s.sale.createdAt) {
      m := m.(today := AddSale(m.today, total, itemCount));
    }
  }

  /** The today pass over the sales the `filter` kept: the today tally. */
  method TodayPass(todaySales: seq<FetchedSale>) returns (tally: seq<TopEntry>)
    ensures tally == Tally(todaySales, false)
  {
    tally := [];
    var n := 0;
    while n < |todaySales|
      invariant n <= |todaySales|
      invariant tally == Tally(todaySales[..n], false)
    {
      assert todaySales[..n + 1][..n] == todaySales[..n];
      tally := TallyItems(tally, todaySales[n].items, false);
      n := n + 1;
    }
    assert todaySales[..n] == todaySales;
  }

  /** The inner `sale_items.forEach` of either pass: each item into the tally, in order. */
  method TallyItems(t: seq<TopEntry>, items: seq<FetchedItem>, withRevenue: bool) returns (t': seq<TopEntry>)
    ensures t' == AddItems(t, items, withRevenue)
  {
    t' := t;
    var j := 0;
    while j < |items|
      invariant j <= |items|
      invariant t' == AddItems(t, items[..j], withRevenue)
    {
      assert items[..j + 1][..j] == items[..j];
      t' := AddItem(t', items[j], withRevenue);
      j := j + 1;
    }
    assert items[..j] == items;
  }

  // Properties of the tallies.

  /** Units sold recorded for `pid` in a tally (0 when it has no entry). */
  function SoldOf(t: seq<TopEntry>, pid: int): int
  {
    var k := IndexOf(t, pid);
    if k < |t| then t[k].sold else 0
  }

  /** Revenue recorded for `pid` in a tally (0 when it has no entry). */
  function RevenueOf(t: seq<TopEntry>, pid: int): real
  {
    var k := IndexOf(t, pid);
    if k < |t| then t[k].revenue else 0.0
  }

  /** Σ quantity over the items of product `pid`. */
  function ItemsQuantityFor(items: seq<FetchedItem>, pid: int): int
  {
    if items == [] then 0
    else ItemsQuantityFor(items[..|items| - 1], pid) + (if items[|items| - 1].productId == pid then items[|items| - 1].quantity else 0)
  }

  /** Σ quantity × (price_at_sale || 0) over the items of product `pid`. */
  function ItemsRevenueFor(items: seq<FetchedItem>, pid: int): real
  {
    if items == [] then 0.0
    else ItemsRevenueFor(items[..|items| - 1], pid) + (if items[|items| - 1].productId == pid then ItemRevenue(items[|items| - 1]) else 0.0)
  }

  /** Σ quantity of product `pid` over every item of every sale. */
  function QuantityFor(sales: seq<FetchedSale>, pid: int): int
  {
    if sales == [] then 0 else QuantityFor(sales[..|sales| - 1], pid) + ItemsQuantityFor(sales[|sales| - 1].items, pid)
  }

  /** Σ revenue of product `pid` over every item of every sale. */
  function RevenueFor(sales: seq<FetchedSale>, pid: int): real
  {
    if sales == [] then 0.0 else RevenueFor(sales[..|sales| - 1], pid) + ItemsRevenueFor(sales[|sales| - 1].items, pid)
  }

  /** No two entries of a tally are for the same product. */
  predicate Distinct(t: seq<TopEntry>)
  {
    forall i, j :: 0 <= i < j < |t| ==> t[i].productId != t[j].productId
  }

  /** `IndexOf` is the first position of the product. */
  lemma {:induction false} IndexOfUnique(t: seq<TopEntry>, pid: int, k: nat)
    requires k <= |t|
    requires k < |t| ==> t[k].productId == pid
    requires forall i :: 0 <= i < k ==> t[i].productId != pid
    ensures IndexOf(t, pid) == k
  {
    if t != [] && k > 0 {
      IndexOfUnique(t[1..], pid, k - 1);
    }
  }

  /** One item adds its quantity, and for the year tally its revenue, to its own product's entry only. */
  lemma AddItemCounts(t: seq<TopEntry>, i: FetchedItem, withRevenue: bool, pid: int)
    ensures SoldOf(AddItem(t, i, withRevenue), pid) == SoldOf(t, pid) + (if i.productId == pid then i.quantity else 0)
    ensures RevenueOf(AddItem(t, i, withRevenue), pid)
         == RevenueOf(t, pid) + (if i.productId == pid && withRevenue then ItemRevenue(i) else 0.0)
  {
    var k, kp := IndexOf(t, i.productId), IndexOf(t, pid);
    var t' := AddItem(t, i, withRevenue);
    if k < |t| || kp < |t| {
      IndexOfUnique(t', pid, kp);
    } else if pid == i.productId {
      IndexOfUnique(t', pid, |t|);
    } else {
      IndexOfUnique(t', pid, |t'|);
    }
  }

  lemma {:induction false} AddItemsCounts(t: seq<TopEntry>, items: seq<FetchedItem>, withRevenue: bool, pid: int)
    ensures SoldOf(AddItems(t, items, withRevenue), pid) == SoldOf(t, pid) + ItemsQuantityFor(items, pid)
    ensures RevenueOf(AddItems(t, items, withRevenue), pid)
         == RevenueOf(t, pid) + (if withRevenue then ItemsRevenueFor(items, pid) else 0.0)
  {
    if items != [] {
      var init := items[..|items| - 1];
      AddItemsCounts(t, init, withRevenue, pid);
      AddItemCounts(AddItems(t, init, withRevenue), items[|items| - 1], withRevenue, pid);
    }
  }

  /**
   * The year tally records, for every product, the sum of the quantities of
   * its items across all fetched sales and the sum of quantity ×
   * (price_at_sale or 0); the today tally records the quantities only.
   */
  lemma {:induction false} TallyCounts(sales: seq<FetchedSale>, withRevenue: bool, pid: int)
    ensures SoldOf(Tally(sales, withRevenue), pid) == QuantityFor(sales, pid)
    ensures RevenueOf(Tally(sales, withRevenue), pid) == if withRevenue then RevenueFor(sales, pid) else 0.0
  {
    if sales != [] {
      var init := sales[..|sales| - 1];
      TallyCounts(init, withRevenue, pid);
      AddItemsCounts(Tally(init, withRevenue), sales[|sales| - 1].items, withRevenue, pid);
    }
  }

  lemma AddItemDistinct(t: seq<TopEntry>, i: FetchedItem, withRevenue: bool)
    requires Distinct(t)
    ensures Distinct(AddItem(t, i, withRevenue))
  {
  }

  lemma {:induction false} AddItemsDistinct(t: seq<TopEntry>, items: seq<FetchedItem>, withRevenue: bool)
    requires Distinct(t)
    ensures Distinct(AddItems(t, items, withRevenue))
  {
    if items != [] {
      AddItemsDistinct(t, items[..|items| - 1], withRevenue);
      AddItemDistinct(AddItems(t, items[..|items| - 1], withRevenue), items[|items| - 1], withRevenue);
    }
  }

  /** A tally has one entry per product, as the dictionary keyed by product id has. */
  lemma {:induction false} TallyDistinct(sales: seq<FetchedSale>, withRevenue: bool)
    ensures Distinct(Tally(sales, withRevenue))
  {
    if sales != [] {
      TallyDistinct(sales[..|sales| - 1], withRevenue);
      AddItemsDistinct(Tally(sales[..|sales| - 1], withRevenue), sales[|sales| - 1].items, withRevenue);
    }
  }

  // Properties of the buckets.

  lemma FilterSingle(s: FetchedSale, p: FetchedSale -> bool)
    ensures Seqs.Filter([s], p) == if p(s) then [s] else []
  {
    assert [s][1..] == [];
  }

  /** Every fetched sale counts once in the year bucket. */
  lemma {:induction false} YearCountsEverySale(sales: seq<FetchedSale>)
    ensures BucketOf(sales, Always).orders == |sales|
  {
    if sales != [] {
      YearCountsEverySale(sales[..|sales| - 1]);
    }
  }

  /** The sales of a period, split before the last fetched sale. */
  lemma PeriodSalesLast(sales: seq<FetchedSale>, inPeriod: int -> bool)
    requires sales != []
    ensures var last := sales[|sales| - 1];
      PeriodSales(sales, inPeriod)
      == PeriodSales(sales[..|sales| - 1], inPeriod) + (if inPeriod(last.sale.createdAt) then [last] else [])
  {
    var init, last := sales[..|sales| - 1], sales[|sales| - 1];
    assert sales == init + [last];
    Seqs.FilterAppend(init, [last], InPeriod(inPeriod));
    FilterSingle(last, InPeriod(inPeriod));
  }

  /** A period's bucket is the year bucket of the sales dated in that period. */
  lemma {:induction false} BucketIsYearBucketOfPeriod(sales: seq<FetchedSale>, inPeriod: int -> bool)
    ensures BucketOf(sales, inPeriod) == BucketOf(PeriodSales(sales, inPeriod), Always)
  {
    if sales != [] {
      var init, last := sales[..|sales| - 1], sales[|sales| - 1];
      BucketIsYearBucketOfPeriod(init, inPeriod);
      PeriodSalesLast(sales, inPeriod);
      var before := PeriodSales(init, inPeriod);
      if inPeriod(last.sale.createdAt) {
        assert PeriodSales(sales, inPeriod) == before + [last];
        assert (before + [last])[..|before + [last]| - 1] == before;
      } else {
        assert PeriodSales(sales, inPeriod) == before;
      }
    }
  }

  /** A period's order count is the number of fetched sales dated in it. */
  lemma PeriodOrders(sales: seq<FetchedSale>, inPeriod: int -> bool)
    ensures BucketOf(sales, inPeriod).orders == |PeriodSales(sales, inPeriod)|
  {
    BucketIsYearBucketOfPeriod(sales, inPeriod);
    YearCountsEverySale(PeriodSales(sales, inPeriod));
  }

  /** When one period lies within another (a month within the year), it counts no more orders. */
  lemma {:induction false} NestedPeriodFewerOrders(sales: seq<FetchedSale>, inner: int -> bool, outer: int -> bool)
    requires forall t :: inner(t) ==> outer(t)
    ensures BucketOf(sales, inner).orders <= BucketOf(sales, outer).orders
  {
    if sales != [] {
      NestedPeriodFewerOrders(sales[..|sales| - 1], inner, outer);
    }
  }

  /** Σ quantity of product `pid` over the items of the sales of today, read off the unfiltered sales. */
  function TodayQuantityFor(sales: seq<FetchedSale>, day: int -> bool, pid: int): int
  {
    if sales == [] then 0
    else
      var last := sales[|sales| - 1];
      TodayQuantityFor(sales[..|sales| - 1], day, pid) + (if day(last.sale.createdAt) then ItemsQuantityFor(last.items, pid) else 0)
  }

  /** The today tally counts the items of the sales dated today, and only those. */
  lemma {:induction false} TodayTallyCountsOnlyToday(sales: seq<FetchedSale>, day: int -> bool, pid: int)
    ensures SoldOf(Tally(PeriodSales(sales, day), false), pid) == TodayQuantityFor(sales, day, pid)
  {
    TallyCounts(PeriodSales(sales, day), false, pid);
    TodayQuantities(sales, day, pid);
  }

  lemma {:induction false} TodayQuantities(sales: seq<FetchedSale>, day: int -> bool, pid: int)
    ensures QuantityFor(PeriodSales(sales, day), pid) == TodayQuantityFor(sales, day, pid)
  {
    if sales != [] {
      var init, last := sales[..|sales| - 1], sales[|sales| - 1];
      TodayQuantities(init, day, pid);
      PeriodSalesLast(sales, day);
      var before := PeriodSales(init, day);
      if day(last.sale.createdAt) {
        assert PeriodSales(sales, day) == before + [last];
        assert (before + [last])[..|before + [last]| - 1] == before;
      } else {
        assert PeriodSales(sales, day) == before;
      }
    }
  }

  // The revenue column of the year tally.

  /** As the query is written, an item arrives without `price_at_sale`, so it adds no revenue. */
  lemma AsWrittenItemAddsNoRevenue(row: SaleItem, products: map<int, Product>)
    ensures ItemRevenue(FetchItemAsWritten(row, products)) == 0.0
  {
  }

  /** A sale of two units at 10.0 shows 0.0 revenue in the year tally as the query is written. */
  lemma AsWrittenYearRevenueExample()
    ensures var row := SaleItem(1, 7, 2, 10.0);
            var sale := Sale(1, 1, Some(20.0), Some(0.0), None, 0);
            Tally([FetchedSale(sale, [FetchItemAsWritten(row, map[])])], true) == [TopEntry(7, UnknownName, 2, 0.0)]
  {
    var row := SaleItem(1, 7, 2, 10.0);
    var item := FetchItemAsWritten(row, map[]);
    assert [item][..0] == [];
    assert AddItems([], [item], true) == [TopEntry(7, UnknownName, 2, 0.0)];
  }

  /** Selecting `price_at_sale` as well, each item adds its quantity × price_at_sale. */
  lemma FetchedItemAddsItsValue(row: SaleItem, products: map<int, Product>)
    ensures ItemRevenue(FetchItem(row, products)) == (row.quantity as real) * row.priceAtSale
  {
  }

  /** The same sale with the price selected shows its 20.0 of revenue. */
  lemma YearRevenueExample()
    ensures var row := SaleItem(1, 7, 2, 10.0);
            var sale := Sale(1, 1, Some(20.0), Some(0.0), None, 0);
            Tally([FetchedSale(sale, [FetchItem(row, map[])])], true) == [TopEntry(7, UnknownName, 2, 20.0)]
  {
    var row := SaleItem(1, 7, 2, 10.0);
    var item := FetchItem(row, map[]);
    assert [item][..0] == [];
    assert AddItems([], [item], true) == [TopEntry(7, UnknownName, 2, 20.0)];
  }

  /** The items of one sale as the query that selects `price_at_sale` returns them, in order. */
  function FetchItems(rows: seq<SaleItem>, products: map<int, Product>): (r: seq<FetchedItem>)
    ensures |r| == |rows|
  {
    if rows == [] then [] else FetchItems(rows[..|rows| - 1], products) + [FetchItem(rows[|rows| - 1], products)]
  }

  /** The items of one sale as the query as written returns them, in order. */
  function FetchItemsAsWritten(rows: seq<SaleItem>, products: map<int, Product>): (r: seq<FetchedItem>)
    ensures |r| == |rows|
  {
    if rows == [] then [] else FetchItemsAsWritten(rows[..|rows| - 1], products) + [FetchItemAsWritten(rows[|rows| - 1], products)]
  }

  /** Σ quantity × price_at_sale over the stored item rows of product `pid`. */
  function RowsRevenueFor(rows: seq<SaleItem>, pid: int): real
  {
    if rows == [] then 0.0
    else
      var last := rows[|rows| - 1];
      RowsRevenueFor(rows[..|rows| - 1], pid) + (if last.productId == pid then (last.quantity as real) * last.priceAtSale else 0.0)
  }

  /** As the query is written, the items of a sale add no revenue to any product. */
  lemma {:induction false} AsWrittenItemsAddNoRevenue(rows: seq<SaleItem>, products: map<int, Product>, pid: int)
    ensures ItemsRevenueFor(FetchItemsAsWritten(rows, products), pid) == 0.0
  {
    if rows != [] {
      var items := FetchItemsAsWritten(rows, products);
      AsWrittenItemsAddNoRevenue(rows[..|rows| - 1], products, pid);
      assert items[..|items| - 1] == FetchItemsAsWritten(rows[..|rows| - 1], products);
      AsWrittenItemAddsNoRevenue(rows[|rows| - 1], products);
    }
  }

  /** With `price_at_sale` selected, the items of a sale add exactly the value of its stored rows. */
  lemma {:induction false} FetchedRevenueMatchesRows(rows: seq<SaleItem>, products: map<int, Product>, pid: int)
    ensures ItemsRevenueFor(FetchItems(rows, products), pid) == RowsRevenueFor(rows, pid)
  {
    if rows != [] {
      var items := FetchItems(rows, products);
      FetchedRevenueMatchesRows(rows[..|rows| - 1], products, pid);
      assert items[..|items| - 1] == FetchItems(rows[..|rows| - 1], products);
      FetchedItemAddsItsValue(rows[|rows| - 1], products);
    }
  }

  /** The sales of the year as the query as written returns them: each stored sale with its item rows. */
  function FetchSalesAsWritten(stored: seq<(Sale, seq<SaleItem>)>, products: map<int, Product>): (r: seq<FetchedSale>)
    ensures |r| == |stored|
  {
    if stored == [] then []
    else
      var last := stored[|stored| - 1];
      FetchSalesAsWritten(stored[..|stored| - 1], products) + [FetchedSale(last.0, FetchItemsAsWritten(last.1, products))]
  }

  /** As the query is written, the `topYear` tally records no revenue for any product. */
  lemma {:induction false} AsWrittenYearTallyHasNoRevenue(stored: seq<(Sale, seq<SaleItem>)>, products: map<int, Product>, pid: int)
    ensures RevenueOf(Tally(FetchSalesAsWritten(stored, products), true), pid) == 0.0
  {
    TallyCounts(FetchSalesAsWritten(stored, products), true, pid);
    AsWrittenRevenueForIsZero(stored, products, pid);
  }

  lemma {:induction false} AsWrittenRevenueForIsZero(stored: seq<(Sale, seq<SaleItem>)>, products: map<int, Product>, pid: int)
    ensures RevenueFor(FetchSalesAsWritten(stored, products), pid) == 0.0
  {
    if stored != [] {
      var sales := FetchSalesAsWritten(stored, products);
      var init := stored[..|stored| - 1];
      AsWrittenRevenueForIsZero(init, products, pid);
      assert sales[..|sales| - 1] == FetchSalesAsWritten(init, products);
      AsWrittenItemsAddNoRevenue(stored[|stored| - 1].1, products, pid);
    }
  }

  /** The sales of the year as the corrected query returns them, with `price_at_sale` selected. */
  function FetchSales(stored: seq<(Sale, seq<SaleItem>)>, products: map<int, Product>): (r: seq<FetchedSale>)
    ensures |r| == |stored|
  {
    if stored == [] then []
    else
      var last := stored[|stored| - 1];
      FetchSales(stored[..|stored| - 1], products) + [FetchedSale(last.0, FetchItems(last.1, products))]
  }

  /** Σ quantity × price_at_sale over the stored item rows of every sale, for one product. */
  function StoredRevenueFor(stored: seq<(Sale, seq<SaleItem>)>, pid: int): real
  {
    if stored == [] then 0.0
    else StoredRevenueFor(stored[..|stored| - 1], pid) + RowsRevenueFor(stored[|stored| - 1].1, pid)
  }

  /** With the price selected, the `topYear` tally records each product's stored revenue. */
  lemma {:induction false} YearTallyRevenueMatchesRows(stored: seq<(Sale, seq<SaleItem>)>, products: map<int, Product>, pid: int)
    ensures RevenueOf(Tally(FetchSales(stored, products), true), pid) == StoredRevenueFor(stored, pid)
  {
    TallyCounts(FetchSales(stored, products), true, pid);
    FetchedRevenueForMatchesRows(stored, products, pid);
  }

  lemma {:induction false} FetchedRevenueForMatchesRows(stored: seq<(Sale, seq<SaleItem>)>, products: map<int, Product>, pid: int)
    ensures RevenueFor(FetchSales(stored, products), pid) == StoredRevenueFor(stored, pid)
  {
    if stored != [] {
      var sales := FetchSales(stored, products);
      var init := stored[..|stored| - 1];
      FetchedRevenueForMatchesRows(init, products, pid);
      assert sales[..|sales| - 1] == FetchSales(init, products);
      FetchedRevenueMatchesRows(stored[|stored| - 1].1, products, pid);
    }
  }
}
