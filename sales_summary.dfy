/** The cashier's summary of the store's sales (`pages/CaixaDashboard`):
    count, revenue, average ticket and the most recent sales. */
module SalesSummary {
  import opened Seqs
  import opened DataContext

  /** `averageTicket`: `todaySales` counts every recorded sale whatever its
      date, and `todayRevenue` is their `Revenue`. Zero without sales, so
      nothing is divided by zero; otherwise the ticket that, times the number
      of sales, gives the revenue. */
  function AverageTicket(sales: seq<Sale>): (avg: real)
    ensures |sales| == 0 ==> avg == 0.0
    ensures |sales| > 0 ==> avg * |sales| as real == Revenue(sales)
  {
    if |sales| > 0 then Revenue(sales) / |sales| as real else 0.0
  }

  /** With non-negative totals, the average ticket is at most the revenue. */
  lemma AverageTicketBounds(sales: seq<Sale>)
    requires forall i :: 0 <= i < |sales| ==> sales[i].total >= 0.0
    ensures 0.0 <= AverageTicket(sales) <= Revenue(sales)
  {
    RevenueNonNegative(sales);
    if |sales| > 0 {
      var n := |sales| as real;
      var avg := AverageTicket(sales);
      assert avg * n == Revenue(sales);
      assert n >= 1.0;
    }
  }

  /** `sales.slice(-5).reverse()`. */
  function RecentSales(sales: seq<Sale>): (r: seq<Sale>)
    ensures |r| == if |sales| < 5 then |sales| else 5
  {
    Reverse(LastN(sales, 5))
  }

  /** The recent list holds the last sales, newest first. */
  lemma RecentSalesNewestFirst(sales: seq<Sale>)
    ensures forall k :: 0 <= k < |RecentSales(sales)| ==> RecentSales(sales)[k] == sales[|sales| - 1 - k]
  {
    var last := LastN(sales, 5);
    var r := RecentSales(sales);
    assert r == Reverse(last);
    forall k | 0 <= k < |r|
      ensures r[k] == sales[|sales| - 1 - k]
    {
      ReverseSuffixAt(sales, last, k);
    }
  }
}
