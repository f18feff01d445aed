/** The three sums the dashboard, the report page and the export all take over
    the sales ledger (`sales.reduce((acc, s) => acc + s.<field>, 0)`). */
module Ledger {
  import opened Types

  /** Sum of `totalAmount` over the ledger: the revenue. */
  function SumAmount(sales: seq<Sale>): int
  {
    if sales == [] then 0 else sales[0].totalAmount + SumAmount(sales[1..])
  }

  /** Sum of `totalCost` over the ledger. */
  function SumCost(sales: seq<Sale>): int
  {
    if sales == [] then 0 else sales[0].totalCost + SumCost(sales[1..])
  }

  /** Sum of `totalProfit` over the ledger. */
  function SumProfit(sales: seq<Sale>): int
  {
    if sales == [] then 0 else sales[0].totalProfit + SumProfit(sales[1..])
  }

  /** The sums split over a ledger cut in two, so they do not depend on where
      new sales go: `reduce`'s front-to-back accumulation gives the same totals,
      and prepending a sale adds exactly its own figures. */
  lemma {:induction false} SumsConcat(a: seq<Sale>, b: seq<Sale>)
    ensures SumAmount(a + b) == SumAmount(a) + SumAmount(b)
    ensures SumCost(a + b) == SumCost(a) + SumCost(b)
    ensures SumProfit(a + b) == SumProfit(a) + SumProfit(b)
  {
    if a == [] {
      assert a + b == b;
    } else {
      assert (a + b)[1..] == a[1..] + b;
      SumsConcat(a[1..], b);
    }
  }

  /** Every sale of the ledger satisfies the profit identity. */
  predicate AllProfitIdentity(sales: seq<Sale>)
  {
    forall k :: 0 <= k < |sales| ==> ProfitIdentity(sales[k])
  }

  /** When each sale keeps the profit identity, summing the per-sale profits
      gives the same number as revenue minus cost. */
  lemma {:induction false} LedgerProfitIdentity(sales: seq<Sale>)
    ensures AllProfitIdentity(sales) ==> SumProfit(sales) == SumAmount(sales) - SumCost(sales)
  {
    if sales != [] && AllProfitIdentity(sales) {
      assert ProfitIdentity(sales[0]);
      LedgerProfitIdentity(sales[1..]);
    }
  }
}
