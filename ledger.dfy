/**
 * The sales history and the reports computed from it: the running sales
 * total, today's sales, per-sale profit, the hourly breakdown and the
 * event-adjusted profit of a sale.
 */
module Ledger {
  import opened Wrappers
  import opened Catalog
  import opened Pricing

  type Hour = h: int | 0 <= h < 24

  /** The local calendar fields of a sale's timestamp that the reports read. */
  datatype Timestamp = Timestamp(year: int, month: int, day: int, hour: Hour)

  /** A finalized sale; `items` is the cart's lines as they were at checkout. */
  datatype SaleRecord = SaleRecord(id: int, timestamp: Timestamp, items: seq<LineItem>,
                                   paymentMethod: PaymentMethod, total: real, eventId: Option<int>)

  /** The market event the vendor is currently attending. */
  datatype MarketEvent = MarketEvent(id: int, name: string, startDate: string, endDate: string,
                                     location: string, cost: real)

  /** `sales.reduce((sum, sale) => sum + sale.total, 0)`. */
  function SalesTotal(sales: seq<SaleRecord>): (r: real)
    decreases |sales|
  {
    if |sales| == 0 then 0.0 else SalesTotal(sales[..|sales| - 1]) + sales[|sales| - 1].total
  }

  lemma {:induction false} SalesTotalAppend(a: seq<SaleRecord>, b: seq<SaleRecord>)
    ensures SalesTotal(a + b) == SalesTotal(a) + SalesTotal(b)
    decreases |b|
  {
    if |b| == 0 {
      assert a + b == a;
    } else {
      SalesTotalAppend(a, b[..|b| - 1]);
      assert (a + b)[..|a + b| - 1] == a + b[..|b| - 1];
    }
  }

  /** Recording a sale at the head of the history raises the sales total by exactly its total. */
  lemma SalesTotalPrepend(record: SaleRecord, history: seq<SaleRecord>)
    ensures SalesTotal([record] + history) == record.total + SalesTotal(history)
  {
    SalesTotalAppend([record], history);
    assert [record][..0] == [];
  }

  /** Same year, month and day of the month. */
  predicate SameDay(a: Timestamp, b: Timestamp) {
    a.day == b.day && a.month == b.month && a.year == b.year
  }

  /** The history filtered to the records of `today`'s calendar day, in history order. */
  function TodaySales(history: seq<SaleRecord>, today: Timestamp): (r: seq<SaleRecord>)
    ensures forall x :: x in r <==> x in history && SameDay(x.timestamp, today)
    ensures |r| <= |history|
    decreases |history|
  {
    if |history| == 0 then []
    else
      var init, last := history[..|history| - 1], history[|history| - 1];
      assert history == init + [last];
      TodaySales(init, today) + (if SameDay(last.timestamp, today) then [last] else [])
  }

  /**
   * The today filter works record by record and keeps history order:
   * filtering a concatenation filters each part. With the single-record
   * case below, this fixes the result, duplicates included.
   */
  lemma {:induction false} TodaySalesAppend(a: seq<SaleRecord>, b: seq<SaleRecord>, today: Timestamp)
    ensures TodaySales(a + b, today) == TodaySales(a, today) + TodaySales(b, today)
    decreases |b|
  {
    if |b| == 0 {
      assert a + b == a;
    } else {
      var last := b[|b| - 1];
      var tail := if SameDay(last.timestamp, today) then [last] else [];
      assert (a + b)[..|a + b| - 1] == a + b[..|b| - 1] && (a + b)[|a + b| - 1] == last;
      assert TodaySales(a + b, today) == TodaySales(a + b[..|b| - 1], today) + tail;
      TodaySalesAppend(a, b[..|b| - 1], today);
      assert TodaySales(b, today) == TodaySales(b[..|b| - 1], today) + tail;
    }
  }

  /** A single record is kept exactly when it is of today. */
  lemma TodaySalesOfOne(x: SaleRecord, today: Timestamp)
    ensures TodaySales([x], today) == if SameDay(x.timestamp, today) then [x] else []
  {
    assert [x][..0] == [];
  }

  /** How many of today's sales the report counts: the records of today, counted with repetition. */
  lemma {:induction false} TodaySalesCount(history: seq<SaleRecord>, today: Timestamp, x: SaleRecord)
    ensures multiset(TodaySales(history, today))[x] == if SameDay(x.timestamp, today) then multiset(history)[x] else 0
    decreases |history|
  {
    if |history| > 0 {
      var init, last := history[..|history| - 1], history[|history| - 1];
      TodaySalesCount(init, today, x);
      assert history == init + [last];
    }
  }

  /** One line's profit: snapshot sale price minus the product's CURRENT cost; 0 once the product is deleted. */
  function LineProfit(item: LineItem, products: seq<Product>): (r: real)
    ensures FindProduct(products, item.productId).None? ==> r == 0.0
    ensures item.quantity == 0 ==> r == 0.0
  {
    match FindProduct(products, item.productId)
    case None => 0.0
    case Some(p) => (item.price - p.cost) * item.quantity as real
  }

  /** `calculateSaleProfit`: the sum of the line profits. */
  function SaleProfit(items: seq<LineItem>, products: seq<Product>): (r: real)
    decreases |items|
  {
    if |items| == 0 then 0.0 else SaleProfit(items[..|items| - 1], products) + LineProfit(items[|items| - 1], products)
  }

  /** Snapshot revenue of the lines whose product still exists. */
  function SnapshotRevenue(items: seq<LineItem>, products: seq<Product>): real
    decreases |items|
  {
    if |items| == 0 then 0.0
    else
      var last := items[|items| - 1];
      var found := FindProduct(products, last.productId).Some?;
      SnapshotRevenue(items[..|items| - 1], products) + (if found then last.price * last.quantity as real else 0.0)
  }

  /** Current cost of goods of the lines whose product still exists. */
  function CostOfGoods(items: seq<LineItem>, products: seq<Product>): real
    decreases |items|
  {
    if |items| == 0 then 0.0
    else
      var last := items[|items| - 1];
      var cost := match FindProduct(products, last.productId)
        case None => 0.0
        case Some(p) => p.cost * last.quantity as real;
      CostOfGoods(items[..|items| - 1], products) + cost
  }

  /** Profit is snapshot revenue minus current cost, over the lines still in the catalog. */
  lemma {:induction false} SaleProfitIsRevenueMinusCost(items: seq<LineItem>, products: seq<Product>)
    ensures SaleProfit(items, products) == SnapshotRevenue(items, products) - CostOfGoods(items, products)
    decreases |items|
  {
    if |items| > 0 {
      SaleProfitIsRevenueMinusCost(items[..|items| - 1], products);
      var last := items[|items| - 1];
      match FindProduct(products, last.productId)
      case None =>
      case Some(p) =>
        assert (last.price - p.cost) * last.quantity as real == last.price * last.quantity as real - p.cost * last.quantity as real;
    }
  }

  /** `calculateEventProfit`: revenue minus current cost of goods minus the event's fixed cost. */
  function EventProfit(sale: Sale, event: Option<MarketEvent>, products: seq<Product>): real {
    sale.total - CostOfGoods(sale.items, products) - (if event.Some? then event.value.cost else 0.0)
  }

  method CalculateEventProfit(sale: Sale, event: Option<MarketEvent>, products: seq<Product>) returns (profit: real)
    ensures profit == EventProfit(sale, event, products)
  {
    var totalRevenue := sale.total;
    var totalCostOfGoods := 0.0;
    var i := 0;
    while i < |sale.items|
      invariant 0 <= i <= |sale.items|
      invariant totalCostOfGoods == CostOfGoods(sale.items[..i], products)
    {
      var item := sale.items[i];
      var product := FindProduct(products, item.productId);
      if product.Some? {
        totalCostOfGoods := totalCostOfGoods + product.value.cost * item.quantity as real;
      }
      assert sale.items[..i + 1][..i] == sale.items[..i];
      i := i + 1;
    }
    assert sale.items[..|sale.items|] == sale.items;
    var eventCost := if event.Some? then event.value.cost else 0.0;
    profit := totalRevenue - totalCostOfGoods - eventCost;
  }

  /**
   * When a sale was taken at its snapshot prices with no discount, its
   * event profit without an event is exactly the report's sale profit, and
   * an event lowers it by the event's cost.
   */
  lemma EventProfitAgreesWithSaleProfit(sale: Sale, event: MarketEvent, products: seq<Product>)
    requires sale.total == SnapshotRevenue(sale.items, products)
    ensures EventProfit(sale, None, products) == SaleProfit(sale.items, products)
    ensures EventProfit(sale, Some(event), products) == SaleProfit(sale.items, products) - event.cost
  {
    SaleProfitIsRevenueMinusCost(sale.items, products);
  }

  // ---------------------------------------------------------------------
  // Hourly breakdown

  /** What an hourly series adds up: a sale's total, or its profit. */
  datatype Measure = Revenue | Profit

  function Weight(sale: SaleRecord, products: seq<Product>, m: Measure): real {
    match m
    case Revenue => sale.total
    case Profit => SaleProfit(sale.items, products)
  }

  function TotalOf(sales: seq<SaleRecord>, products: seq<Product>, m: Measure): real
    decreases |sales|
  {
    if |sales| == 0 then 0.0 else TotalOf(sales[..|sales| - 1], products, m) + Weight(sales[|sales| - 1], products, m)
  }

  /** The measure summed over the sales made in hour `h`. */
  function BucketSum(sales: seq<SaleRecord>, products: seq<Product>, m: Measure, h: Hour): real
    decreases |sales|
  {
    if |sales| == 0 then 0.0
    else
      var last := sales[|sales| - 1];
      BucketSum(sales[..|sales| - 1], products, m, h) + (if last.timestamp.hour == h then Weight(last, products, m) else 0.0)
  }

  function SumReals(s: seq<real>): real
    decreases |s|
  {
    if |s| == 0 then 0.0 else SumReals(s[..|s| - 1]) + s[|s| - 1]
  }

  lemma {:induction false} SumRealsBump(b: seq<real>, k: nat, d: real)
    requires k < |b|
    ensures SumReals(b[k := b[k] + d]) == SumReals(b) + d
    decreases |b|
  {
    var n := |b| - 1;
    var bumped := b[k := b[k] + d];
    if k == n {
      assert bumped[..n] == b[..n];
    } else {
      assert bumped[..n] == b[..n][k := b[k] + d];
      SumRealsBump(b[..n], k, d);
    }
  }

  lemma {:induction false} SumRealsZero(b: seq<real>)
    requires forall i :: 0 <= i < |b| ==> b[i] == 0.0
    ensures SumReals(b) == 0.0
    decreases |b|
  {
    if |b| > 0 {
      SumRealsZero(b[..|b| - 1]);
    }
  }

  /** The 24 hourly buckets of a measure add up to the measure's total. */
  lemma {:induction false} BucketsSumToTotal(sales: seq<SaleRecord>, products: seq<Product>, m: Measure, buckets: seq<real>)
    requires |buckets| == 24
    requires forall h :: 0 <= h < 24 ==> buckets[h] == BucketSum(sales, products, m, h)
    ensures SumReals(buckets) == TotalOf(sales, products, m)
    decreases |sales|
  {
    if |sales| == 0 {
      SumRealsZero(buckets);
    } else {
      var init, last := sales[..|sales| - 1], sales[|sales| - 1];
      var before := seq(24, h requires 0 <= h < 24 => BucketSum(init, products, m, h));
      BucketsSumToTotal(init, products, m, before);
      var hour := last.timestamp.hour;
      var w := Weight(last, products, m);
      assert buckets == before[hour := before[hour] + w];
      SumRealsBump(before, hour, w);
    }
  }

  lemma {:induction false} RevenueIsSalesTotal(sales: seq<SaleRecord>, products: seq<Product>)
    ensures TotalOf(sales, products, Revenue) == SalesTotal(sales)
    decreases |sales|
  {
    if |sales| > 0 {
      RevenueIsSalesTotal(sales[..|sales| - 1], products);
    }
  }

  /** The hourly sales and profit series of the report chart. */
  method HourlyBuckets(sales: seq<SaleRecord>, products: seq<Product>) returns (hourlySales: seq<real>, hourlyProfit: seq<real>)
    ensures |hourlySales| == 24 && |hourlyProfit| == 24
    ensures forall h :: 0 <= h < 24 ==>
      hourlySales[h] == BucketSum(sales, products, Revenue, h) && hourlyProfit[h] == BucketSum(sales, products, Profit, h)
    ensures SumReals(hourlySales) == SalesTotal(sales)
    ensures SumReals(hourlyProfit) == TotalOf(sales, products, Profit)
  {
    hourlySales, hourlyProfit := [], [];
    var i := 0;
    while i < 24
      invariant 0 <= i <= 24 && |hourlySales| == i && |hourlyProfit| == i
      invariant forall h :: 0 <= h < i ==> hourlySales[h] == 0.0 && hourlyProfit[h] == 0.0
    {
      hourlySales, hourlyProfit := hourlySales + [0.0], hourlyProfit + [0.0];
      i := i + 1;
    }
    var j := 0;
    while j < |sales|
      invariant 0 <= j <= |sales| && |hourlySales| == 24 && |hourlyProfit| == 24
      invariant forall h :: 0 <= h < 24 ==>
        hourlySales[h] == BucketSum(sales[..j], products, Revenue, h) &&
        hourlyProfit[h] == BucketSum(sales[..j], products, Profit, h)
    {
      var sale := sales[j];
      var hour := sale.timestamp.hour;
      hourlySales := hourlySales[hour := hourlySales[hour] + sale.total];
      hourlyProfit := hourlyProfit[hour := hourlyProfit[hour] + SaleProfit(sale.items, products)];
      assert sales[..j + 1][..j] == sales[..j];
      j := j + 1;
    }
    assert sales[..|sales|] == sales;
    BucketsSumToTotal(sales, products, Revenue, hourlySales);
    BucketsSumToTotal(sales, products, Profit, hourlyProfit);
    RevenueIsSalesTotal(sales, products);
  }

  /** The figures of the "today's sales" report. */
  datatype DayReport = DayReport(totalSales: real, totalProfit: real, transactionCount: nat,
                                 hourlySales: seq<real>, hourlyProfit: seq<real>)

  /** `showTodaysSaleReport` without its rendering; `today` is the clock reading. */
  method TodaysSaleReport(history: seq<SaleRecord>, products: seq<Product>, today: Timestamp) returns (report: DayReport)
    ensures var todays := TodaySales(history, today);
      report.totalSales == SalesTotal(todays) &&
      report.totalProfit == TotalOf(todays, products, Profit) &&
      report.transactionCount == |todays|
    ensures |report.hourlySales| == 24 && |report.hourlyProfit| == 24
    ensures forall h :: 0 <= h < 24 ==>
      report.hourlySales[h] == BucketSum(TodaySales(history, today), products, Revenue, h) &&
      report.hourlyProfit[h] == BucketSum(TodaySales(history, today), products, Profit, h)
    ensures SumReals(report.hourlySales) == report.totalSales
    ensures SumReals(report.hourlyProfit) == report.totalProfit
  {
    var todays := TodaySales(history, today);
    var totalSales := SalesTotal(todays);
    var totalProfit := TotalOf(todays, products, Profit);
    var hourlySales, hourlyProfit := HourlyBuckets(todays, products);
    report := DayReport(totalSales, totalProfit, |todays|, hourlySales, hourlyProfit);
  }
}
