/**
 * The data service: for holdings, trades and the portfolio summary it
 * serves the broker's live data when an active broker account is cached,
 * and the mock catalogue otherwise or when the broker call fails. Live
 * records are renamed into the dashboard's shapes. Provenance is kept in
 * one shared `usingRealData` flag, which every category accessor
 * overwrites, so it describes only the most recent accessor call.
 */
module Reconciliation {
  import opened Wrappers
  import opened Http
  import opened Strings
  import opened MockData
  import Seqs
  import BrokerGateway
  import BrokerModel

  /** An open position as the broker reports it (the fields the service reads). */
  datatype BrokerPosition = BrokerPosition(
    symbol: string,
    quantity: real,
    avg_price: real,
    current_price: real,
    market_value: real,
    unrealized_pnl: real,
    unrealized_pnl_percent: real)

  /** An execution as the broker reports it (the fields the service reads). */
  datatype BrokerTrade = BrokerTrade(
    id: Option<int>,
    symbol: string,
    side: Side,
    quantity: real,
    price: real,
    execution_time: string)

  /** The broker's portfolio summary (the fields the service reads). */
  datatype BrokerPortfolioSummary = BrokerPortfolioSummary(
    total_value: real,
    total_pnl: real,
    total_pnl_percent: real,
    positions_count: nat)

  /** A category result together with where it came from. */
  datatype Sourced<T> = Sourced(data: T, live: bool)

  function ToHolding(p: BrokerPosition): Holding {
    Holding(p.symbol, p.quantity, p.avg_price, p.current_price,
            p.market_value, p.unrealized_pnl, p.unrealized_pnl_percent)
  }

  /** `trade.id?.toString() ?? ''`. */
  function TradeId(id: Option<int>): string {
    match id
    case Some(n) => IntToString(n)
    case None => ""
  }

  /** A live execution as a dashboard trade; profit is not computed (there is no paired trade). */
  function ToTrade(t: BrokerTrade): Trade {
    Trade(TradeId(t.id), t.symbol, t.side, t.quantity, t.price, t.price, t.execution_time, 0.0, 0.0)
  }

  /** `positions.map(...)`: one holding per position, in order, with the broker's fields renamed. */
  function NormaliseHoldings(ps: seq<BrokerPosition>): (hs: seq<Holding>)
    ensures |hs| == |ps|
    ensures forall k :: 0 <= k < |ps| ==>
              hs[k].symbol == ps[k].symbol &&
              hs[k].quantity == ps[k].quantity &&
              hs[k].avgPrice == ps[k].avg_price &&
              hs[k].currentPrice == ps[k].current_price &&
              hs[k].value == ps[k].market_value &&
              hs[k].pl == ps[k].unrealized_pnl &&
              hs[k].plPercent == ps[k].unrealized_pnl_percent
  {
    if ps == [] then [] else [ToHolding(ps[0])] + NormaliseHoldings(ps[1..])
  }

  /**
   * `trades.map(...)`: one trade per execution, in order; both prices are
   * the execution price, profit and its percentage are zero, and the id is
   * the broker id as text or empty when the broker gave none.
   */
  function NormaliseTrades(ts: seq<BrokerTrade>): (r: seq<Trade>)
    ensures |r| == |ts|
    ensures forall k :: 0 <= k < |ts| ==>
              r[k].id == TradeId(ts[k].id) &&
              r[k].symbol == ts[k].symbol &&
              r[k].side == ts[k].side &&
              r[k].quantity == ts[k].quantity &&
              r[k].entryPrice == ts[k].price &&
              r[k].exitPrice == ts[k].price &&
              r[k].date == ts[k].execution_time &&
              r[k].profit == 0.0 &&
              r[k].profitPercent == 0.0
  {
    if ts == [] then [] else [ToTrade(ts[0])] + NormaliseTrades(ts[1..])
  }

  /** The rendered id is empty exactly when the broker sent none, and distinct ids stay distinct. */
  lemma TradeIdFaithful(a: Option<int>, b: Option<int>)
    ensures TradeId(a) == "" <==> a.None?
    ensures TradeId(a) == TradeId(b) ==> a == b
  {
    if a.Some? { ParseIntToString(a.value); }
    if b.Some? { ParseIntToString(b.value); }
  }

  /** The live summary with the broker's fields renamed; the win rate is not derived. */
  function ToSummary(s: BrokerPortfolioSummary): (r: PortfolioSummary)
    ensures r.winRate == 0.0
    ensures r.totalValue == s.total_value && r.totalPL == s.total_pnl
    ensures r.plPercent == s.total_pnl_percent && r.holdings == s.positions_count
  {
    PortfolioSummary(s.total_value, s.total_pnl, s.total_pnl_percent, s.positions_count, 0.0)
  }

  /** Which holdings `getHoldings` serves, given the broker state and the broker's response. */
  function SelectHoldings(connected: bool, positions: Outcome<seq<BrokerPosition>>): (r: Sourced<seq<Holding>>)
    ensures r.live <==> connected && positions.Success?
    ensures r.live ==> r.data == NormaliseHoldings(positions.data)
    ensures !r.live ==> r.data == GetHoldings()
  {
    if connected && positions.Success? then Sourced(NormaliseHoldings(positions.data), true)
    else Sourced(GetHoldings(), false)
  }

  /** Which trades `getTrades` serves. */
  function SelectTrades(connected: bool, trades: Outcome<seq<BrokerTrade>>): (r: Sourced<seq<Trade>>)
    ensures r.live <==> connected && trades.Success?
    ensures r.live ==> r.data == NormaliseTrades(trades.data)
    ensures !r.live ==> r.data == GetTrades()
  {
    if connected && trades.Success? then Sourced(NormaliseTrades(trades.data), true)
    else Sourced(GetTrades(), false)
  }

  /** Which summary `getPortfolioSummary` serves. */
  function SelectSummary(connected: bool, summary: Outcome<BrokerPortfolioSummary>): (r: Sourced<PortfolioSummary>)
    ensures r.live <==> connected && summary.Success?
    ensures r.live ==> r.data == ToSummary(summary.data)
    ensures !r.live ==> r.data == MockData.GetPortfolioSummary()
  {
    if connected && summary.Success? then Sourced(ToSummary(summary.data), true)
    else Sourced(MockData.GetPortfolioSummary(), false)
  }

  /** A trade that is not a winner: zero profit counts as a loss. */
  predicate IsLoser(t: Trade) { t.profit <= 0.0 }

  /** Journal statistics with the divide-by-zero guards of the live path. */
  function JournalStatsOf(ts: seq<Trade>): (r: JournalStats)
    ensures r.totalTrades == |ts|
    ensures r.winners == |Seqs.Filter(IsWinner, ts)|
    ensures r.losers == |Seqs.Filter(IsLoser, ts)|
    ensures r.winners + r.losers == r.totalTrades
    ensures r.totalProfit == TotalProfit(ts)
    ensures ts == [] ==> r == JournalStats(0, 0, 0, 0.0, 0.0, 0.0)
    ensures ts != [] ==> r.winRate == (r.winners as real / r.totalTrades as real) * 100.0
    ensures ts != [] ==> 0.0 <= r.winRate <= 100.0
    ensures ts != [] ==> r.avgTrade == r.totalProfit / r.totalTrades as real
  {
    var winners := CountWinners(ts);
    var totalTrades := |ts|;
    var totalProfit := TotalProfit(ts);
    Seqs.FilterComplement(IsWinner, IsLoser, ts);
    RatioFacts(winners, totalTrades);
    var avgTrade := if totalTrades > 0 then totalProfit / totalTrades as real else 0.0;
    var winRate := if totalTrades > 0 then (winners as real / totalTrades as real) * 100.0 else 0.0;
    JournalStats(totalTrades, winners, totalTrades - winners, winRate, totalProfit, avgTrade)
  }

  /** A win count over a non-empty journal gives a percentage between 0 and 100. */
  lemma RatioFacts(winners: nat, totalTrades: nat)
    requires winners <= totalTrades
    ensures 0 < totalTrades ==> 0.0 <= (winners as real / totalTrades as real) * 100.0 <= 100.0
  {
    if totalTrades > 0 {
      var n := totalTrades as real;
      var q := winners as real / n;
      assert q * n == winners as real;
      assert q <= 1.0;
    }
  }

  /** On the mock trades the guarded statistics equal the mock catalogue's own. */
  lemma MockStatsAgree()
    ensures JournalStatsOf(GetTrades()) == MockData.GetJournalStats()
  {
    MockTradeFacts(GetTrades());
  }

  class DataService {
    const brokerService: BrokerGateway.BrokerService
    var usingRealData: bool

    constructor (brokerService: BrokerGateway.BrokerService)
      ensures this.brokerService == brokerService && !usingRealData
    {
      this.brokerService := brokerService;
      usingRealData := false;
    }

    /** Holdings, live or mock; the flag is raised before the broker call and lowered if it fails. */
    method GetHoldings(positions: Outcome<seq<BrokerPosition>>) returns (holdings: seq<Holding>)
      modifies this`usingRealData
      ensures var s := SelectHoldings(brokerService.HasConnectedBroker(), positions);
              holdings == s.data && usingRealData == s.live
    {
      if brokerService.HasConnectedBroker() {
        usingRealData := true;
        match positions {
          case Success(ps) =>
            holdings := NormaliseHoldings(ps);
          case Failure(_) =>
            usingRealData := false;
            holdings := MockData.GetHoldings();
        }
      } else {
        usingRealData := false;
        holdings := MockData.GetHoldings();
      }
    }

    /** Trades, live or mock. */
    method GetTrades(trades: Outcome<seq<BrokerTrade>>) returns (result: seq<Trade>)
      modifies this`usingRealData
      ensures var s := SelectTrades(brokerService.HasConnectedBroker(), trades);
              result == s.data && usingRealData == s.live
    {
      if brokerService.HasConnectedBroker() {
        usingRealData := true;
        match trades {
          case Success(ts) =>
            result := NormaliseTrades(ts);
          case Failure(_) =>
            usingRealData := false;
            result := MockData.GetTrades();
        }
      } else {
        usingRealData := false;
        result := MockData.GetTrades();
      }
    }

    /** The portfolio summary, live or mock. */
    method GetPortfolioSummary(summary: Outcome<BrokerPortfolioSummary>) returns (result: PortfolioSummary)
      modifies this`usingRealData
      ensures var s := SelectSummary(brokerService.HasConnectedBroker(), summary);
              result == s.data && usingRealData == s.live
    {
      if brokerService.HasConnectedBroker() {
        usingRealData := true;
        match summary {
          case Success(s) =>
            result := ToSummary(s);
          case Failure(_) =>
            usingRealData := false;
            result := MockData.GetPortfolioSummary();
        }
      } else {
        usingRealData := false;
        result := MockData.GetPortfolioSummary();
      }
    }

    /** Journal statistics over whatever trades `GetTrades` serves. */
    method GetJournalStats(trades: Outcome<seq<BrokerTrade>>) returns (stats: JournalStats)
      modifies this`usingRealData
      ensures var s := SelectTrades(brokerService.HasConnectedBroker(), trades);
              stats == JournalStatsOf(s.data) && usingRealData == s.live
    {
      var served := GetTrades(trades);
      stats := JournalStatsOf(served);
    }

    /** Scanner rows always come from the mock catalogue. */
    method GetScanners() returns (rows: seq<Scanner>)
      ensures rows == MockData.GetScanners()
    {
      rows := MockData.GetScanners();
    }

    /** Analytics always come from the mock catalogue. */
    method GetAnalytics() returns (series: seq<AnalyticsData>)
      ensures series == MockData.GetAnalytics()
    {
      series := MockData.GetAnalytics();
    }

    /** The provenance flag, as the last of the holdings, trades and summary accessors left it. */
    function IsUsingRealData(): (r: bool)
      reads this
      ensures r <==> usingRealData
    {
      usingRealData
    }

    /** Whether the broker cache holds an active account. */
    function IsBrokerConnected(): (r: bool)
      reads this, brokerService
      ensures r <==> exists k :: 0 <= k < |brokerService.brokerAccounts| &&
                                 brokerService.brokerAccounts[k].status == BrokerModel.Active
    {
      brokerService.HasConnectedBroker()
    }
  }
}
