/**
 * The fixed demonstration catalogue served whenever no broker data is
 * available, and the two aggregates computed from it. Every getter is a
 * function of no arguments, so repeated calls yield equal data and change
 * nothing.
 */
module MockData {
  import Seqs

  datatype Side = Buy | Sell

  /** A closed trade; `date` is the calendar day the source builds a `Date` from. */
  datatype Trade = Trade(
    id: string,
    symbol: string,
    side: Side,
    quantity: real,
    entryPrice: real,
    exitPrice: real,
    date: string,
    profit: real,
    profitPercent: real)

  /** A currently held position. */
  datatype Holding = Holding(
    symbol: string,
    quantity: real,
    avgPrice: real,
    currentPrice: real,
    value: real,
    pl: real,
    plPercent: real)

  /** One row of the market scanner. */
  datatype Scanner = Scanner(
    symbol: string,
    price: real,
    change: real,
    changePercent: real,
    volume: real,
    category: string)

  /** One day of the cumulative-profit series. */
  datatype AnalyticsData = AnalyticsData(date: string, cumProfit: real, trades: nat)

  /** Aggregate view of the portfolio. */
  datatype PortfolioSummary = PortfolioSummary(
    totalValue: real,
    totalPL: real,
    plPercent: real,
    holdings: nat,
    winRate: real)

  /** Win/loss statistics over a list of trades. */
  datatype JournalStats = JournalStats(
    totalTrades: nat,
    winners: nat,
    losers: nat,
    winRate: real,
    totalProfit: real,
    avgTrade: real)

  /** Five closed trades; each is a winner exactly when the price moved in the trade's direction. */
  function GetTrades(): (ts: seq<Trade>)
    ensures |ts| == 5
    ensures forall k :: 0 <= k < |ts| ==>
              (ts[k].profit > 0.0 <==>
               if ts[k].side == Buy then ts[k].exitPrice > ts[k].entryPrice else ts[k].exitPrice < ts[k].entryPrice)
  {
    [
      Trade("1", "AAPL", Buy, 10.0, 175.5, 182.3, "2025-10-15", 680.0, 3.88),
      Trade("2", "GOOGL", Buy, 5.0, 140.2, 138.9, "2025-10-14", -65.0, -1.09),
      Trade("3", "MSFT", Sell, 8.0, 420.5, 425.8, "2025-10-13", -424.0, -1.26),
      Trade("4", "TSLA", Buy, 20.0, 245.1, 258.7, "2025-10-12", 2720.0, 5.57),
      Trade("5", "NVDA", Buy, 3.0, 875.2, 895.5, "2025-10-11", 609.0, 2.32)
    ]
  }

  /** Five long positions, each priced above its average cost and showing a profit. */
  function GetHoldings(): (hs: seq<Holding>)
    ensures |hs| == 5
    ensures forall k :: 0 <= k < |hs| ==>
              hs[k].quantity > 0.0 && hs[k].currentPrice > hs[k].avgPrice && hs[k].pl > 0.0
  {
    [
      Holding("AAPL", 50.0, 170.2, 182.3, 9115.0, 605.0, 7.11),
      Holding("MSFT", 25.0, 410.5, 425.8, 10645.0, 382.5, 3.73),
      Holding("GOOGL", 15.0, 135.8, 138.9, 2083.5, 46.5, 2.28),
      Holding("TSLA", 40.0, 240.5, 258.7, 10348.0, 728.0, 7.56),
      Holding("NVDA", 8.0, 860.2, 895.5, 7164.0, 282.4, 4.10)
    ]
  }

  /**
   * Six scanner rows: the change and its percentage have the same sign, a
   * top gainer rose, a top loser fell, and every volume is in the millions.
   */
  function GetScanners(): (rows: seq<Scanner>)
    ensures |rows| == 6
    ensures forall k :: 0 <= k < |rows| ==> (rows[k].change > 0.0 <==> rows[k].changePercent > 0.0)
    ensures forall k :: 0 <= k < |rows| && rows[k].category == "Top Gainers" ==> rows[k].changePercent > 0.0
    ensures forall k :: 0 <= k < |rows| && rows[k].category == "Top Losers" ==> rows[k].changePercent < 0.0
    ensures forall k :: 0 <= k < |rows| ==> rows[k].volume >= 1000000.0
  {
    [
      Scanner("MSTR", 245.3, 18.5, 8.18, 2450000.0, "Top Gainers"),
      Scanner("COIN", 165.8, 12.3, 8.01, 3120000.0, "Top Gainers"),
      Scanner("CRM", 312.5, -15.2, -4.64, 1890000.0, "Top Losers"),
      Scanner("AMZN", 198.7, 8.2, 4.31, 4230000.0, "Most Active"),
      Scanner("META", 545.9, 22.1, 4.22, 3560000.0, "Top Gainers"),
      Scanner("NFLX", 287.4, -18.6, -6.07, 2780000.0, "Top Losers")
    ]
  }

  /** Fifteen trading days, each with at least two trades and a positive cumulative profit. */
  function GetAnalytics(): (days: seq<AnalyticsData>)
    ensures |days| == 15
    ensures forall k :: 0 <= k < |days| ==> days[k].trades >= 2 && days[k].cumProfit > 0.0
  {
    [
      AnalyticsData("10/01", 145.0, 2),
      AnalyticsData("10/02", 425.0, 4),
      AnalyticsData("10/03", 280.0, 3),
      AnalyticsData("10/04", 812.0, 5),
      AnalyticsData("10/05", 645.0, 4),
      AnalyticsData("10/06", 1230.0, 6),
      AnalyticsData("10/07", 1560.0, 7),
      AnalyticsData("10/08", 1450.0, 5),
      AnalyticsData("10/09", 2105.0, 8),
      AnalyticsData("10/10", 1945.0, 6),
      AnalyticsData("10/11", 2554.0, 7),
      AnalyticsData("10/12", 3274.0, 8),
      AnalyticsData("10/13", 2850.0, 6),
      AnalyticsData("10/14", 2785.0, 5),
      AnalyticsData("10/15", 3465.0, 7)
    ]
  }

  /** `holdings.reduce((sum, h) => sum + h.value, 0)`. */
  function TotalValue(hs: seq<Holding>): (total: real)
    ensures (forall k :: 0 <= k < |hs| ==> hs[k].value >= 0.0) ==> total >= 0.0
  {
    if hs == [] then 0.0 else hs[0].value + TotalValue(hs[1..])
  }

  /** `holdings.reduce((sum, h) => sum + h.pl, 0)`. */
  function TotalPL(hs: seq<Holding>): (total: real)
    ensures (forall k :: 0 <= k < |hs| ==> hs[k].pl >= 0.0) ==> total >= 0.0
    ensures (forall k :: 0 <= k < |hs| ==> hs[k].pl <= 0.0) ==> total <= 0.0
  {
    if hs == [] then 0.0
    else hs[0].pl + TotalPL(hs[1..])
  }

  /** What the holdings cost: the sum of quantity times average price. */
  function CostBasis(hs: seq<Holding>): real {
    if hs == [] then 0.0 else hs[0].quantity * hs[0].avgPrice + CostBasis(hs[1..])
  }

  /** A holding's value and profit agree with its quantity and prices. */
  predicate Consistent(h: Holding) {
    h.value == h.quantity * h.currentPrice &&
    h.pl == h.value - h.quantity * h.avgPrice
  }

  /**
   * For consistent holdings, total value minus total profit is exactly the
   * cost basis, so the summary's percentage is profit relative to cost.
   */
  lemma {:induction false} CostBasisIdentity(hs: seq<Holding>)
    requires forall k :: 0 <= k < |hs| ==> Consistent(hs[k])
    ensures TotalValue(hs) - TotalPL(hs) == CostBasis(hs)
  {
    if hs != [] {
      var h, rest := hs[0], hs[1..];
      assert forall k :: 0 <= k < |rest| ==> rest[k] == hs[k + 1];
      CostBasisIdentity(rest);
      assert Consistent(h);
      assert TotalValue(hs) - TotalPL(hs) == (h.value - h.pl) + (TotalValue(rest) - TotalPL(rest));
    }
  }

  /** The mock holdings: five distinct symbols, every row consistent, AAPL worth 9115. */
  lemma MockHoldingsFacts()
    ensures |GetHoldings()| == 5
    ensures forall i, j :: 0 <= i < j < |GetHoldings()| ==> GetHoldings()[i].symbol != GetHoldings()[j].symbol
    ensures forall k :: 0 <= k < |GetHoldings()| ==> Consistent(GetHoldings()[k])
    ensures GetHoldings()[0].symbol == "AAPL" && GetHoldings()[0].value == 9115.0
  {
  }

  /** Portfolio totals over the mock holdings. */
  function GetPortfolioSummary(): (r: PortfolioSummary)
    ensures r.totalValue == TotalValue(GetHoldings()) == 39355.5
    ensures r.totalPL == TotalPL(GetHoldings()) == 2044.4
    ensures r.totalValue - r.totalPL == CostBasis(GetHoldings())
    ensures r.plPercent * CostBasis(GetHoldings()) == r.totalPL * 100.0
    ensures r.holdings == |GetHoldings()| == 5
    ensures r.winRate == 60.0
  {
    var holdings := GetHoldings();
    var totalValue := TotalValue(holdings);
    var totalPL := TotalPL(holdings);
    Sums(holdings);
    PortfolioSummary(totalValue, totalPL, (totalPL / (totalValue - totalPL)) * 100.0, |holdings|, 60.0)
  }

  /** The two sums, unfolded over the five mock rows. */
  lemma Sums(hs: seq<Holding>)
    requires hs == GetHoldings()
    ensures TotalValue(hs) == 39355.5 && TotalPL(hs) == 2044.4 && CostBasis(hs) == 37311.1
  {
    assert CostBasis(hs[4..]) == 8.0 * 860.2;
    assert CostBasis(hs[3..]) == 40.0 * 240.5 + 8.0 * 860.2;
    assert CostBasis(hs[2..]) == 15.0 * 135.8 + 40.0 * 240.5 + 8.0 * 860.2;
    assert CostBasis(hs[1..]) == 25.0 * 410.5 + 15.0 * 135.8 + 40.0 * 240.5 + 8.0 * 860.2;
    assert TotalValue(hs[4..]) == 7164.0;
    assert TotalValue(hs[3..]) == 10348.0 + 7164.0;
    assert TotalValue(hs[2..]) == 2083.5 + 10348.0 + 7164.0;
    assert TotalValue(hs[1..]) == 10645.0 + 2083.5 + 10348.0 + 7164.0;
    assert TotalPL(hs[4..]) == 282.4;
    assert TotalPL(hs[3..]) == 728.0 + 282.4;
    assert TotalPL(hs[2..]) == 46.5 + 728.0 + 282.4;
    assert TotalPL(hs[1..]) == 382.5 + 46.5 + 728.0 + 282.4;
  }

  /** `trades.reduce((sum, t) => sum + t.profit, 0)`. */
  function TotalProfit(ts: seq<Trade>): (total: real)
    ensures (forall k :: 0 <= k < |ts| ==> ts[k].profit >= 0.0) ==> total >= 0.0
    ensures (forall k :: 0 <= k < |ts| ==> ts[k].profit <= 0.0) ==> total <= 0.0
  {
    if ts == [] then 0.0
    else ts[0].profit + TotalProfit(ts[1..])
  }

  /** A trade counts as a winner when its profit is strictly positive. */
  predicate IsWinner(t: Trade) { t.profit > 0.0 }

  /** Number of winners: `trades.filter(t => t.profit > 0).length`. */
  function CountWinners(ts: seq<Trade>): (n: nat)
    ensures n <= |ts|
  {
    |Seqs.Filter(IsWinner, ts)|
  }

  /** Journal statistics over the mock trades; the source divides without a guard here. */
  function GetJournalStats(): (r: JournalStats)
    ensures r == JournalStats(5, 3, 2, 60.0, 3520.0, 704.0)
  {
    var trades := GetTrades();
    var winners := CountWinners(trades);
    var totalTrades := |trades|;
    var totalProfit := TotalProfit(trades);
    MockTradeFacts(trades);
    JournalStats(totalTrades, winners, totalTrades - winners,
                 (winners as real / totalTrades as real) * 100.0, totalProfit,
                 totalProfit / totalTrades as real)
  }

  /** Winners and total profit, unfolded over the five mock trades. */
  lemma MockTradeFacts(ts: seq<Trade>)
    requires ts == GetTrades()
    ensures CountWinners(ts) == 3 && TotalProfit(ts) == 3520.0
  {
    MockWinners(ts);
    MockProfit(ts);
  }

  lemma MockWinners(ts: seq<Trade>)
    requires ts == GetTrades()
    ensures Seqs.Filter(IsWinner, ts) == [ts[0], ts[3], ts[4]]
  {
    assert Seqs.Filter(IsWinner, ts[4..]) == [ts[4]];
    assert Seqs.Filter(IsWinner, ts[3..]) == [ts[3], ts[4]];
    assert Seqs.Filter(IsWinner, ts[2..]) == [ts[3], ts[4]];
    assert Seqs.Filter(IsWinner, ts[1..]) == [ts[3], ts[4]];
  }

  lemma MockProfit(ts: seq<Trade>)
    requires ts == GetTrades()
    ensures TotalProfit(ts) == 3520.0
  {
    assert TotalProfit(ts[4..]) == 609.0;
    assert TotalProfit(ts[3..]) == 2720.0 + 609.0;
    assert TotalProfit(ts[2..]) == -424.0 + 2720.0 + 609.0;
    assert TotalProfit(ts[1..]) == -65.0 - 424.0 + 2720.0 + 609.0;
  }
}
