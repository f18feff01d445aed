/** The dashboard's figures (pages/Dashboard.tsx): the headline statistics and
    the seven-day sales/profit series. A timestamp's local calendar day is
    given by the caller as `dayOf`. One reference day `today` stands for the
    clock readings the chart loop takes: the day the dashboard page was last
    opened. The chart is recomputed then, and the ledger cannot change while
    the page is shown, because only the POS page records sales. */
module Dashboard {
  import opened Types
  import opened Ledger

  // ----------------------------------------------------------------- stats

  /** Low stock: at or below the product's threshold. */
  predicate IsLowStock(p: Product)
  {
    p.stock <= p.minStock
  }

  /** The products the dashboard counts as running low, in catalog order. */
  function LowStock(products: seq<Product>): (r: seq<Product>)
    ensures |r| <= |products|
    ensures forall p :: p in r ==> p in products && IsLowStock(p)
    ensures forall p :: p in products && IsLowStock(p) ==> p in r
  {
    if products == [] then []
    else if IsLowStock(products[0]) then [products[0]] + LowStock(products[1..])
    else LowStock(products[1..])
  }

  /** Adding a product to the catalog raises the low-stock count by one exactly
      when that product is low. */
  lemma {:induction false} LowStockAppend(products: seq<Product>, p: Product)
    ensures |LowStock(products + [p])| == |LowStock(products)| + (if IsLowStock(p) then 1 else 0)
  {
    if products == [] {
      assert products + [p] == [p];
    } else {
      assert (products + [p])[1..] == products[1..] + [p];
      LowStockAppend(products[1..], p);
    }
  }

  /** The threshold is inclusive: stock equal to it counts, one more does not. */
  lemma LowStockThreshold(products: seq<Product>, p: Product)
    ensures p.stock == p.minStock ==> |LowStock(products + [p])| == |LowStock(products)| + 1
    ensures p.stock == p.minStock + 1 ==> |LowStock(products + [p])| == |LowStock(products)|
  {
    LowStockAppend(products, p);
  }

  datatype Stats = Stats(totalRevenue: int, totalProfit: int, lowStockCount: nat, salesCount: nat)

  /** The four headline figures. */
  function ComputeStats(products: seq<Product>, sales: seq<Sale>): (r: Stats)
    ensures r.totalRevenue == SumAmount(sales)
    ensures r.totalProfit == r.totalRevenue - SumCost(sales)
    ensures AllProfitIdentity(sales) ==> r.totalProfit == SumProfit(sales)
    ensures r.lowStockCount == |LowStock(products)| && r.lowStockCount <= |products|
    ensures r.salesCount == |sales|
  {
    var totalRevenue := SumAmount(sales);
    var totalCost := SumCost(sales);
    var totalProfit := totalRevenue - totalCost;
    LedgerProfitIdentity(sales);
    Stats(totalRevenue, totalProfit, |LowStock(products)|, |sales|)
  }

  // ----------------------------------------------------------- the chart

  /** One bar of the chart: a calendar day with its sales and profit. */
  datatype ChartPoint = ChartPoint(day: int, sales: int, profit: int)

  /** The sales made on calendar day `day`, in ledger order. */
  function OnDay(sales: seq<Sale>, dayOf: int -> int, day: int): (r: seq<Sale>)
    ensures |r| <= |sales|
    ensures AllProfitIdentity(sales) ==> AllProfitIdentity(r)
  {
    if sales == [] then []
    else if dayOf(sales[0].timestamp) == day then [sales[0]] + OnDay(sales[1..], dayOf, day)
    else OnDay(sales[1..], dayOf, day)
  }

  /** A sale is among a day's sales exactly when it is in the ledger and was made on that day. */
  lemma {:induction false} OnDayMembers(sales: seq<Sale>, dayOf: int -> int, day: int, s: Sale)
    ensures s in OnDay(sales, dayOf, day) <==> s in sales && dayOf(s.timestamp) == day
  {
    if sales != [] {
      OnDayMembers(sales[1..], dayOf, day, s);
      assert s in sales <==> s == sales[0] || s in sales[1..];
    }
  }

  /** The bar for one day: that day's revenue and the sum of its sales' profits.
      When every sale keeps the profit identity, the bar's profit is its revenue
      minus that day's cost, the formula the headline figures use. */
  function DayPoint(sales: seq<Sale>, dayOf: int -> int, day: int): (r: ChartPoint)
    ensures r.day == day && r.sales == SumAmount(OnDay(sales, dayOf, day))
    ensures r.profit == SumProfit(OnDay(sales, dayOf, day))
    ensures AllProfitIdentity(sales) ==> r.profit == r.sales - SumCost(OnDay(sales, dayOf, day))
  {
    var daySales := OnDay(sales, dayOf, day);
    LedgerProfitIdentity(daySales);
    ChartPoint(day, SumAmount(daySales), SumProfit(daySales))
  }

  /** A day on which no sale was made still gets a bar, with zero sales and zero profit. */
  lemma {:induction false} EmptyDay(sales: seq<Sale>, dayOf: int -> int, day: int)
    requires forall k :: 0 <= k < |sales| ==> dayOf(sales[k].timestamp) != day
    ensures DayPoint(sales, dayOf, day) == ChartPoint(day, 0, 0)
  {
    if sales != [] {
      EmptyDay(sales[1..], dayOf, day);
    }
  }

  /** The bars of `n` consecutive days starting at day `first`, oldest first. */
  function Window(sales: seq<Sale>, dayOf: int -> int, first: int, n: nat): (r: seq<ChartPoint>)
    ensures |r| == n
    ensures forall k :: 0 <= k < n ==> r[k] == DayPoint(sales, dayOf, first + k)
    decreases n
  {
    if n == 0 then [] else [DayPoint(sales, dayOf, first)] + Window(sales, dayOf, first + 1, n - 1)
  }

  /** The chart: the seven days ending with `today`, oldest first. */
  function Series(sales: seq<Sale>, dayOf: int -> int, today: int): (r: seq<ChartPoint>)
    ensures |r| == 7 && r[6].day == today
    ensures forall k :: 0 <= k < 7 ==> r[k].day == today - 6 + k
  {
    Window(sales, dayOf, today - 6, 7)
  }

  /** chartData: the loop over i = 6 down to 0 that pushes one bar per day. */
  method ChartData(sales: seq<Sale>, dayOf: int -> int, today: int) returns (result: seq<ChartPoint>)
    ensures result == Series(sales, dayOf, today)
  {
    result := [];
    var i := 6;
    while i >= 0
      invariant -1 <= i <= 6
      invariant |result| == 6 - i
      invariant forall k :: 0 <= k < |result| ==> result[k] == DayPoint(sales, dayOf, today - 6 + k)
    {
      var date := today - i;
      var daySales := OnDay(sales, dayOf, date);
      result := result + [ChartPoint(date, SumAmount(daySales), SumProfit(daySales))];
      i := i - 1;
    }
  }

  /** A sale of the ledger is counted in bar `k` exactly when it was made on that bar's day;
      so it is counted in at most one bar, and in none when it lies outside the week. */
  lemma SaleBucket(sales: seq<Sale>, dayOf: int -> int, today: int, s: Sale)
    requires s in sales
    ensures forall k :: 0 <= k < 7 ==>
      (s in OnDay(sales, dayOf, Series(sales, dayOf, today)[k].day) <==> dayOf(s.timestamp) == today - 6 + k)
    ensures forall j, k ::
      (0 <= j < 7 && 0 <= k < 7 &&
       s in OnDay(sales, dayOf, Series(sales, dayOf, today)[j].day) &&
       s in OnDay(sales, dayOf, Series(sales, dayOf, today)[k].day)) ==> j == k
    ensures dayOf(s.timestamp) < today - 6 || today < dayOf(s.timestamp) ==>
      forall k :: 0 <= k < 7 ==> s !in OnDay(sales, dayOf, Series(sales, dayOf, today)[k].day)
  {
    forall day | today - 6 <= day <= today {
      OnDayMembers(sales, dayOf, day, s);
    }
  }

  /** The sales made on a day in [lo, hi), in ledger order. */
  function InRange(sales: seq<Sale>, dayOf: int -> int, lo: int, hi: int): (r: seq<Sale>)
    ensures hi <= lo ==> r == []
    ensures (forall k :: 0 <= k < |sales| ==> lo <= dayOf(sales[k].timestamp) < hi) ==> r == sales
  {
    if sales == [] then []
    else if lo <= dayOf(sales[0].timestamp) < hi then [sales[0]] + InRange(sales[1..], dayOf, lo, hi)
    else InRange(sales[1..], dayOf, lo, hi)
  }

  /** Sum of the `sales` column of a series. */
  function SeriesSales(points: seq<ChartPoint>): int
  {
    if points == [] then 0 else points[0].sales + SeriesSales(points[1..])
  }

  /** The revenue of a day range is that of its first day plus that of the rest. */
  lemma {:induction false} RangeSplit(sales: seq<Sale>, dayOf: int -> int, lo: int, hi: int)
    requires lo < hi
    ensures SumAmount(InRange(sales, dayOf, lo, hi))
         == SumAmount(OnDay(sales, dayOf, lo)) + SumAmount(InRange(sales, dayOf, lo + 1, hi))
  {
    if sales != [] {
      RangeSplit(sales[1..], dayOf, lo, hi);
    }
  }

  /** The bars of a window add up to the revenue of the sales made inside it. */
  lemma {:induction false} WindowSales(sales: seq<Sale>, dayOf: int -> int, first: int, n: nat)
    ensures SeriesSales(Window(sales, dayOf, first, n)) == SumAmount(InRange(sales, dayOf, first, first + n))
    decreases n
  {
    var hi := first + n;
    if n == 0 {
      assert InRange(sales, dayOf, first, hi) == [];
    } else {
      calc {
        SeriesSales(Window(sales, dayOf, first, n));
        { WindowFirstDay(sales, dayOf, first, n); }
        SumAmount(OnDay(sales, dayOf, first)) + SeriesSales(Window(sales, dayOf, first + 1, n - 1));
        { WindowSales(sales, dayOf, first + 1, n - 1); }
        SumAmount(OnDay(sales, dayOf, first)) + SumAmount(InRange(sales, dayOf, first + 1, hi));
        { RangeSplit(sales, dayOf, first, hi); }
        SumAmount(InRange(sales, dayOf, first, hi));
      }
    }
  }

  /** A window's bars add up to its first day's revenue plus the bars of the remaining days. */
  lemma WindowFirstDay(sales: seq<Sale>, dayOf: int -> int, first: int, n: nat)
    requires n > 0
    ensures SeriesSales(Window(sales, dayOf, first, n))
         == SumAmount(OnDay(sales, dayOf, first)) + SeriesSales(Window(sales, dayOf, first + 1, n - 1))
  {
    var w := Window(sales, dayOf, first, n);
    assert w[1..] == Window(sales, dayOf, first + 1, n - 1);
  }

  /** The seven bars add up to the revenue of the sales of the week; when every
      sale lies in the week, that is the dashboard's total revenue. */
  lemma ChartMatchesRevenue(products: seq<Product>, sales: seq<Sale>, dayOf: int -> int, today: int)
    ensures SeriesSales(Series(sales, dayOf, today)) == SumAmount(InRange(sales, dayOf, today - 6, today + 1))
    ensures (forall k :: 0 <= k < |sales| ==> today - 6 <= dayOf(sales[k].timestamp) <= today) ==>
      SeriesSales(Series(sales, dayOf, today)) == ComputeStats(products, sales).totalRevenue
  {
    WindowSales(sales, dayOf, today - 6, 7);
  }
}
