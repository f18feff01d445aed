/** The financial report page (pages/Reports.tsx): the totals it shows and the
    rows and summary it hands to the spreadsheet export. Building and writing
    the workbook is outside the model; only the numbers are. */
module Reports {
  import opened Types
  import opened Ledger
  import Dashboard

  datatype Totals = Totals(revenue: int, cost: int, profit: int)

  /** The totals on screen: revenue, cost of goods, and gross profit as their difference. */
  function ScreenTotals(sales: seq<Sale>): (r: Totals)
    ensures r.revenue == SumAmount(sales) && r.cost == SumCost(sales)
    ensures r.profit == r.revenue - r.cost
    ensures sales == [] ==> r == Totals(0, 0, 0)
    ensures AllProfitIdentity(sales) ==> r.profit == SumProfit(sales)
  {
    var totalRevenue := SumAmount(sales);
    var totalCost := SumCost(sales);
    LedgerProfitIdentity(sales);
    Totals(totalRevenue, totalCost, totalRevenue - totalCost)
  }

  /** The summary block appended under the exported rows; it is computed
      separately but with the same three formulas as the screen. */
  function ExportSummary(sales: seq<Sale>): (r: Totals)
    ensures r == ScreenTotals(sales)
  {
    var totalRev := SumAmount(sales);
    var totalCost := SumCost(sales);
    Totals(totalRev, totalCost, totalRev - totalCost)
  }

  /** The report's figures agree with the dashboard's. */
  lemma ScreenMatchesDashboard(products: seq<Product>, sales: seq<Sale>)
    ensures ScreenTotals(sales).revenue == Dashboard.ComputeStats(products, sales).totalRevenue
    ensures ScreenTotals(sales).profit == Dashboard.ComputeStats(products, sales).totalProfit
  {
  }

  /** One entry of a row's item list: the line's name and quantity. */
  datatype ItemEntry = ItemEntry(name: string, quantity: int)

  /** One exported row. Date and time are kept as the raw timestamp. */
  datatype ExportRow = ExportRow(
    id: string,
    timestamp: int,
    items: seq<ItemEntry>,
    totalAmount: int,
    totalCost: int,
    totalProfit: int)

  /** The row of one sale: its figures carried over unchanged, one item entry
      per line in order, and a profit column that is amount minus cost
      whenever the sale keeps the profit identity. */
  function RowOf(sale: Sale): (r: ExportRow)
    ensures r.id == sale.id && r.timestamp == sale.timestamp
    ensures r.totalAmount == sale.totalAmount && r.totalCost == sale.totalCost
    ensures r.totalProfit == sale.totalProfit
    ensures ProfitIdentity(sale) ==> r.totalProfit == r.totalAmount - r.totalCost
    ensures |r.items| == |sale.items|
    ensures forall j :: 0 <= j < |r.items| ==>
      r.items[j] == ItemEntry(sale.items[j].name, sale.items[j].quantity)
  {
    ExportRow(sale.id, sale.timestamp,
              seq(|sale.items|, k requires 0 <= k < |sale.items| => ItemEntry(sale.items[k].name, sale.items[k].quantity)),
              sale.totalAmount, sale.totalCost, sale.totalProfit)
  }

  /** The rows of the export: one per sale, in ledger order. */
  function ExportRows(sales: seq<Sale>): (r: seq<ExportRow>)
    ensures |r| == |sales|
    ensures forall k :: 0 <= k < |r| ==>
      && r[k].id == sales[k].id && r[k].timestamp == sales[k].timestamp
      && r[k].totalAmount == sales[k].totalAmount
      && r[k].totalCost == sales[k].totalCost
      && r[k].totalProfit == sales[k].totalProfit
      && |r[k].items| == |sales[k].items|
    ensures forall k, j :: 0 <= k < |r| && 0 <= j < |r[k].items| ==>
      r[k].items[j] == ItemEntry(sales[k].items[j].name, sales[k].items[j].quantity)
  {
    seq(|sales|, k requires 0 <= k < |sales| => RowOf(sales[k]))
  }

  /** Column sums of the exported rows. */
  function RowsAmount(rows: seq<ExportRow>): int
  {
    if rows == [] then 0 else rows[0].totalAmount + RowsAmount(rows[1..])
  }

  function RowsCost(rows: seq<ExportRow>): int
  {
    if rows == [] then 0 else rows[0].totalCost + RowsCost(rows[1..])
  }

  function RowsProfit(rows: seq<ExportRow>): int
  {
    if rows == [] then 0 else rows[0].totalProfit + RowsProfit(rows[1..])
  }

  /** The rows' amount and cost columns add up to the summary beneath them, and
      so does the profit column when every sale keeps the profit identity. */
  lemma {:induction false} RowsMatchSummary(sales: seq<Sale>)
    ensures RowsAmount(ExportRows(sales)) == ExportSummary(sales).revenue
    ensures RowsCost(ExportRows(sales)) == ExportSummary(sales).cost
    ensures AllProfitIdentity(sales) ==> RowsProfit(ExportRows(sales)) == ExportSummary(sales).profit
  {
    if sales != [] {
      assert ExportRows(sales)[1..] == ExportRows(sales[1..]);
      RowsMatchSummary(sales[1..]);
    }
  }
}
