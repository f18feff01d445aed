# Retail bookkeeping core: a Dafny model

This project models the bookkeeping behind a single-store retail app. The app has a
product catalog, a point-of-sale (POS) cart, a sales ledger, and the dashboard and
report figures derived from them. Prices, costs and quantities are whole Rupiah or
units, so they are `int`.

- `types.dfy` (`Types`): `Product`, `SaleItem` and `Sale`. It also holds the line
  invariant `Consistent` (quantity ≥ 1 and subtotal = quantity × price) and the sale
  invariant `ProfitIdentity`.
- `pos.dfy` (`Pos`): the POS page. Each cart rule (`addToCart`, `removeFromCart`,
  `updateQuantity`, the sale built by `handleCheckout`) is a pure function from the
  old cart to the new one. The class `Register` holds the cart and replaces it with
  the rule's result, as the page does with `setCart`.
- `app.dfy` (`App`): the catalog and ledger transitions (`addSale`, `updateProduct`,
  `addProduct`, `deleteProduct`) and the seed catalog. The class `Shop` holds
  `products` and `sales`. The method `Checkout` passes the page's sale to `addSale`.
- `ledger.dfy` (`Ledger`): the three sums over the ledger (amount, cost, profit).
- `dashboard.dfy` (`Dashboard`): the headline figures, the low-stock count, and the
  seven-day chart. The chart is a method with the source's `for i = 6 down to 0` loop.
- `reports.dfy` (`Reports`): the on-screen totals, plus the rows and summary of the
  spreadsheet export.

A timestamp's local calendar day is a caller-supplied function `dayOf: int -> int`.
The chart's reference day `today` is a parameter: the day the dashboard page was
last opened. The chart is recomputed when that page is opened, and the ledger cannot
change while it is shown, because only the POS page records sales. Sale ids and timestamps, which the
source draws from `Math.random` and `Date.now`, are method parameters.

Behaviours of the code worth noting, which the model keeps as written:

- Checkout does not re-check stock. `addSale` subtracts the quantities as given
  (`AddSaleHasNoStockCheck`). Stock stays non-negative only because the cart bound
  holds (`CheckoutKeepsStockNonNegative`). The cart rules check that bound each time
  the cart changes. It is a hypothesis of the lemma because `Register` does not hold
  the catalog.
- Checking out an empty cart is a silent no-op, not an error.
- `addToCart` adds one unit per click. It never caps a larger request.
- Adding and updating a product validate nothing, and `addProduct` does not reject
  a duplicate id (`CatalogAfterAddDuplicate`).
- `updateProduct` and `deleteProduct` of an absent id change nothing. They do not
  signal an error.

## Model

| member | source | states |
|---|---|---|
| `Pos.FindLine` | pages/POS.tsx:28 | `find`: None exactly when no line has the id; otherwise the line at the first index with that id |
| `Pos.FindProduct` | pages/POS.tsx:58 | `find` on the catalog: None exactly when no product has the id; otherwise the first product with that id |
| `Pos.CartAfterAdd` | pages/POS.tsx:21-48 | the cart grows by one line exactly when stock > 0 and no line has the product's id; the new line goes at the end with quantity 1 and the price and cost snapshots; no existing line loses its snapshot; unique ids and line consistency are preserved |
| `Pos.CartAfterAddOutOfStock` | pages/POS.tsx:22-25 | a product with stock ≤ 0 leaves the cart unchanged |
| `Pos.CartAfterAddExisting` | pages/POS.tsx:28-38 | with a line for the product: if its quantity ≥ stock the cart is unchanged; otherwise only that line changes, to quantity + 1 with subtotal (quantity + 1) × price |
| `Pos.CartAfterAddWithinStock` | pages/POS.tsx:22-47 | a click keeps every line's quantity ≤ its product's stock |
| `Pos.CartTotalAfterAdd` | pages/POS.tsx:34-38 | an accepted click on an existing line raises the cart total by that line's price snapshot; a refused one leaves it unchanged |
| `Pos.CartAfterRemove` | pages/POS.tsx:51-53 | no line with the id remains; every other line is kept and nothing new appears; a no-op when the id is absent; unique ids and consistency are preserved |
| `Pos.CartAfterRemoveConcat` | pages/POS.tsx:52 | removal distributes over concatenation, so the kept lines stay in order |
| `Pos.CartAfterRemoveWithinStock` | pages/POS.tsx:52 | removal keeps every line within stock |
| `Pos.RequestedQuantity` | pages/POS.tsx:59 | the requested quantity is max(1, quantity + delta): at least 1, and equal to 1 or to quantity + delta |
| `Pos.CartAfterUpdate` | pages/POS.tsx:55-68 | length and snapshots are kept; lines for other ids are untouched; unique ids, consistency and the stock bound are preserved |
| `Pos.CartAfterUpdateLine` | pages/POS.tsx:57-64 | the matching line stays as it was when the product is found and max(1, quantity + delta) exceeds its stock; otherwise it takes that quantity with the subtotal recomputed (no stock check when the product is missing) |
| `Pos.CartTotal` | pages/POS.tsx:70 | the total on screen (Σ subtotal); for consistent lines it equals Σ quantity × price from the price snapshots |
| `Pos.CartCost` | pages/POS.tsx:75 | the cart's cost (Σ cost × quantity); for consistent lines, total − cost is Σ quantity × (price − cost) |
| `Pos.CartTotalsAppend` | pages/POS.tsx:70-75 | appending a line adds its subtotal to the total and its cost × quantity to the cost |
| `Pos.CartTotalAfterAddNew` | pages/POS.tsx:40-47 | a click on a product not yet in the cart raises the total by its selling price and the cost by its cost price |
| `Pos.SaleOf` | pages/POS.tsx:72-84 | nothing for an empty cart; otherwise a sale whose items are the cart, whose id and timestamp are the given ones, whose totalAmount is the cart total (Σ subtotal) and totalCost the cart cost (Σ cost × quantity), with totalProfit = totalAmount − totalCost |
| `Pos.SaleTotalsFromSnapshots` | pages/POS.tsx:70-83 | for consistent lines, the sale's totalAmount = Σ quantity × price and its totalProfit = Σ quantity × (price − cost) |
| `Pos.Register.constructor` | pages/POS.tsx:11 | the cart starts empty |
| `Pos.Register.AddToCart` | pages/POS.tsx:21-49 | the new cart is `CartAfterAdd` of the old one; unique ids and consistency hold |
| `Pos.Register.RemoveFromCart` | pages/POS.tsx:51-53 | the new cart is `CartAfterRemove` of the old one; the invariant holds |
| `Pos.Register.UpdateQuantity` | pages/POS.tsx:55-68 | the new cart is `CartAfterUpdate` of the old one; the invariant holds |
| `Pos.Register.HandleCheckout` | pages/POS.tsx:72-89 | returns `SaleOf` the old cart and leaves the cart empty |
| `App.InitialProducts` | App.tsx:10-15 | the seed has four products; each sells above its cost and starts above its low-stock threshold |
| `App.SeedCatalog` | App.tsx:10-15 | the seed has four products with ids "1" to "4", all distinct, none with negative stock |
| `App.StockAfterSale` | App.tsx:46-52 | length, order and every field but stock are kept; products with no matching line are unchanged; otherwise stock falls by the quantity of the first line for that product |
| `App.AddSaleHasNoStockCheck` | App.tsx:46-52 | a line for 5 units of a product holding 2 leaves stock −3 |
| `App.CheckoutKeepsStockNonNegative` | App.tsx:49 | with distinct ids, non-negative stock and a cart within stock, every stock stays ≥ 0 after the sale |
| `App.UnknownItemsIgnored` | App.tsx:46-52 | sale lines for ids not in the catalog have no effect on it |
| `App.CatalogAfterUpdate` | App.tsx:55-57 | every product with the id is replaced; the others stay in place; a no-op when the id is absent; ids and their distinctness are kept |
| `App.CatalogAfterAdd` | App.tsx:59-61 | the new product goes at the end and the old catalog is the prefix; ids stay distinct when the new id is fresh |
| `App.CatalogAfterAddDuplicate` | App.tsx:59-61 | there is no duplicate-id check: adding a taken id breaks distinctness |
| `App.CatalogAfterDelete` | App.tsx:63-65 | no product with the id remains; every other product is kept and nothing new appears; a no-op when absent; distinct ids and non-negative stock are preserved |
| `App.CatalogAfterDeleteConcat` | App.tsx:64 | deletion distributes over concatenation, so the survivors stay in order |
| `App.Shop.constructor` | App.tsx:24-32 | the catalog is the seed and the ledger is empty |
| `App.Shop.AddSale` | App.tsx:44-53 | the sale goes at the front of the ledger, the older sales are unchanged and in order, and the catalog is `StockAfterSale` |
| `App.Shop.UpdateProduct` | App.tsx:55-57 | the catalog is `CatalogAfterUpdate` and the ledger is untouched, so past sale totals cannot change |
| `App.Shop.AddProduct` | App.tsx:59-61 | the catalog is `CatalogAfterAdd` and the ledger is untouched |
| `App.Shop.DeleteProduct` | App.tsx:63-65 | the catalog is `CatalogAfterDelete` and the ledger is untouched |
| `App.Checkout` | App.tsx:95 | an empty cart changes nothing; otherwise the sale is prepended, stock is decremented and the cart is emptied; stock stays ≥ 0 from a cart within stock; every ledger sale keeps the profit identity |
| `App.LedgerAfterCheckout` | App.tsx:45 | prepending a checkout's sale raises the ledger's revenue by the cart total, its cost by the cart cost and its summed profit by their difference |
| `App.SeedScenario` | App.tsx:11 | three clicks on product "1" and a checkout give 54000 / 42000 / 12000 and leave 47 in stock |
| `Ledger.SumsConcat` | pages/Dashboard.tsx:13-14 | the ledger sums `SumAmount`, `SumCost` and `SumProfit` (the `reduce` folds shared by the dashboard, the report page and the export) split over a ledger cut in two, so the order of accumulation does not matter |
| `Ledger.LedgerProfitIdentity` | pages/Reports.tsx:52-54 | when every sale keeps the profit identity, Σ totalProfit = Σ totalAmount − Σ totalCost |
| `Dashboard.LowStock` | pages/Dashboard.tsx:16 | exactly the catalog products with stock ≤ minStock; no longer than the catalog |
| `Dashboard.LowStockAppend` | pages/Dashboard.tsx:16 | adding a product raises the low-stock count by 1 exactly when that product is low |
| `Dashboard.LowStockThreshold` | pages/Dashboard.tsx:16 | stock = minStock counts as low; stock = minStock + 1 does not |
| `Dashboard.ComputeStats` | pages/Dashboard.tsx:12-19 | revenue = Σ totalAmount; profit = revenue − Σ totalCost, which equals Σ totalProfit when each sale keeps the identity; lowStockCount ≤ catalog size; salesCount = ledger length |
| `Dashboard.OnDay` | pages/Dashboard.tsx:28-31 | a day's sales are no more than the ledger, and keep the profit identity when the ledger does |
| `Dashboard.OnDayMembers` | pages/Dashboard.tsx:28-31 | a sale is in a day's list exactly when it is in the ledger and falls on that calendar day |
| `Dashboard.DayPoint` | pages/Dashboard.tsx:32-36 | a bar carries its day, that day's revenue (Σ totalAmount) and its profit (Σ totalProfit of that day's sales); the profit equals its revenue minus that day's cost when every sale keeps the identity |
| `Dashboard.Window` | pages/Dashboard.tsx:24-37 | n bars for n consecutive days, bar k being the bar of day first + k |
| `Dashboard.EmptyDay` | pages/Dashboard.tsx:32-36 | a day without sales gets a bar with 0 sales and 0 profit, not a missing one |
| `Dashboard.Series` | pages/Dashboard.tsx:23-37 | exactly 7 bars, oldest first (today − 6 + k), the last one for today |
| `Dashboard.ChartData` | pages/Dashboard.tsx:21-39 | the loop from i = 6 down to 0 yields `Series`: each bar's sales is Σ totalAmount and its profit Σ totalProfit over that day's sales |
| `Dashboard.SaleBucket` | pages/Dashboard.tsx:28-31 | a sale lands in bar k exactly when it falls on that bar's day; so it lands in at most one bar, and in none outside the week |
| `Dashboard.WindowSales` | pages/Dashboard.tsx:24-36 | the bars of consecutive days add up to the revenue of the sales in that day range |
| `Dashboard.ChartMatchesRevenue` | pages/Dashboard.tsx:13-36 | the 7 bars add up to the revenue of the week's sales; when every sale lies in the week, that is the dashboard's total revenue |
| `Reports.ScreenTotals` | pages/Reports.tsx:52-54 | revenue = Σ totalAmount; cost = Σ totalCost; profit = revenue − cost, which equals Σ totalProfit when each sale keeps the identity; all 0 for an empty ledger |
| `Reports.ExportSummary` | pages/Reports.tsx:33-35 | the export summary equals the on-screen totals |
| `Reports.ScreenMatchesDashboard` | pages/Reports.tsx:52-54 | the report's revenue and profit equal the dashboard's |
| `Reports.RowOf` | pages/Reports.tsx:15-23 | a row keeps its sale's id, timestamp, amount, cost and profit, has one (name, quantity) entry per line in order, and its profit column is amount − cost when the sale keeps the identity |
| `Reports.ExportRows` | pages/Reports.tsx:15-23 | one row per sale, in ledger order, with that sale's id, timestamp, totalAmount, totalCost, totalProfit and one item entry per line |
| `Reports.RowsMatchSummary` | pages/Reports.tsx:15-35 | the amount and cost columns of the rows add up to the summary; so does the profit column when each sale keeps the identity |

## Left out

- Persistence is left out: loading the catalog and ledger from browser storage, and saving them back as JSON. `Shop.constructor` models only the fresh-storage case.
- The login screen and the authentication flag are left out. The bookkeeping never consults them.
- The text-generation insight service and its page are left out. They are a network call with no effect on the catalog, ledger or cart.
- Building and writing the spreadsheet is left out, because it goes through a foreign library. Only the row and summary numbers are modelled.
- Currency formatting and locale date/time strings are left out. A day is the number `dayOf` gives.
- Reports.ExportRows: the item list is kept as (name, quantity) entries rather than the joined "name (xN)" text. Date and time are kept as the raw timestamp, not locale strings.
- Dashboard.Series: each bar carries its day number instead of the short weekday name.
- Dashboard.ChartData / Dashboard.Series: one `today` stands for the seven clock readings the loop takes, one per bar. A recomputation that crosses midnight is not captured: there, bars after the crossing are dated a day later, so one day of the week is skipped and the last bar falls a day after the one the loop started on.
- `alert` pop-ups are left out. A refused action returns the cart unchanged.
- The product search filter on the POS page is left out. It depends on Unicode lower-casing and does not affect the cart.
- Page rendering, navigation and the inventory form's modal state are left out.
- Floating-point behaviour of JavaScript numbers is not modelled. All amounts are whole units, so `int` is used.
- The POS page's lifetime is not modelled. In the program the cart exists only while the POS page is shown, and opening the inventory page to edit the catalog discards it. While the page is shown, the only catalog change is `addSale`, and the same handler empties the cart. The model's `Register` and `Shop` are independent objects, so a `Register` can outlive catalog edits.
- Pos.WithinStock is not a class invariant of `Register`, because `Register` does not hold the catalog. Each cart rule is proved to preserve it instead, and `CheckoutKeepsStockNonNegative` takes it as a hypothesis.
