/** The back end's portfolio analysis (`POST /api/portfolio/analyze` in backend/server.js):
    market value and investment totals, the allocation of value across holdings, total P&L,
    and rule-based recommendations. */
module PortfolioAnalysis {
  import opened Wrappers
  import opened Seqs
  import opened JsNumbers
  import opened PortfolioSlice

  /** One holding's share of the portfolio; `percentage` is of the total market value. */
  datatype AllocationItem = AllocationItem(symbol: string, value: real, percentage: real)

  /** What a recommendation's text reports; the text itself is formatting of these values. */
  datatype Reason =
    | ConcentrationRisk(symbol: string, percentage: real)
    | Underperforming(symbol: string, pnl: Quotient)
    | Outperforming(symbol: string, pnl: Quotient)
    | TooFewHoldings

  /** `kind` is one of "buy", "sell", "hold", "rebalance"; `priority` one of "high", "medium", "low". */
  datatype Recommendation = Recommendation(kind: string, symbol: string, reason: Reason, priority: string)

  datatype AnalysisMetrics = AnalysisMetrics(
    totalValue: real,
    totalInvestment: real,
    totalPnL: real,
    totalPnLPercentage: real)

  datatype Analysis = Analysis(
    metrics: AnalysisMetrics,
    allocation: seq<AllocationItem>,
    recommendations: seq<Recommendation>)

  datatype Response = BadRequest(status: int, message: string) | Analyzed(analysis: Analysis)

  const ConcentrationThreshold: real := 25.0
  const LossThreshold: real := -15.0
  const GainThreshold: real := 20.0
  const MinHoldings: int := 5

  /** `totalValue`: the holdings' market values added up; a portfolio split in two is worth the sum of its parts. */
  function TotalValue(holdings: seq<Holding>): (total: real)
    ensures holdings == [] ==> total == 0.0
    ensures |holdings| == 1 ==> total == MarketValue(holdings[0])
  {
    assert |holdings| == 1 ==> holdings[..0] == [] && SumOf(holdings, MarketValue) == SumOf(holdings[..0], MarketValue) + MarketValue(holdings[0]);
    SumOf(holdings, MarketValue)
  }

  /** `totalInvestment`: what the holdings cost, added up in order. */
  function TotalInvestment(holdings: seq<Holding>): (total: real)
    ensures holdings == [] ==> total == 0.0
    ensures |holdings| == 1 ==> total == Investment(holdings[0])
  {
    assert |holdings| == 1 ==> holdings[..0] == [] && SumOf(holdings, Investment) == SumOf(holdings[..0], Investment) + Investment(holdings[0]);
    SumOf(holdings, Investment)
  }

  /** The totals of a portfolio split in two are the sums of the parts' totals. */
  lemma TotalsSplit(a: seq<Holding>, b: seq<Holding>)
    ensures TotalValue(a + b) == TotalValue(a) + TotalValue(b)
    ensures TotalInvestment(a + b) == TotalInvestment(a) + TotalInvestment(b)
  {
    SumOfAppend(a, b, MarketValue);
    SumOfAppend(a, b, Investment);
  }

  /** Percentage of `total` that `value` makes up, 0 when the total is not positive. */
  function Share(value: real, total: real): real
  {
    if total > 0.0 then value / total * 100.0 else 0.0
  }

  function AllocationWith(holdings: seq<Holding>, total: real): seq<AllocationItem>
  {
    Map(holdings, (h: Holding) => AllocationItem(h.symbol, MarketValue(h), Share(MarketValue(h), total)))
  }

  /** One entry per holding, in holding order, valued at market and weighted by the total. */
  function Allocation(holdings: seq<Holding>): (allocation: seq<AllocationItem>)
    ensures |allocation| == |holdings|
    ensures forall i :: 0 <= i < |holdings| ==>
      allocation[i].symbol == holdings[i].symbol && allocation[i].value == MarketValue(holdings[i])
    ensures forall i :: 0 <= i < |holdings| ==>
      allocation[i].percentage
        == if TotalValue(holdings) > 0.0 then MarketValue(holdings[i]) / TotalValue(holdings) * 100.0 else 0.0
  {
    AllocationWith(holdings, TotalValue(holdings))
  }

  function PercentageOf(item: AllocationItem): real { item.percentage }

  lemma {:induction false} SharesAddUp(holdings: seq<Holding>, total: real)
    requires total > 0.0
    ensures SumOf(AllocationWith(holdings, total), PercentageOf) == TotalValue(holdings) / total * 100.0
  {
    if holdings != [] {
      var n := |holdings|;
      var prefix := holdings[..n - 1];
      SharesAddUp(prefix, total);
      assert AllocationWith(holdings, total)[..n - 1] == AllocationWith(prefix, total);
      var a, b := TotalValue(prefix), MarketValue(holdings[n - 1]);
      assert (a + b) / total == a / total + b / total;
    }
  }

  /** Whenever the portfolio has positive value, the allocation percentages add up to 100. */
  lemma AllocationSumsToHundred(holdings: seq<Holding>)
    requires TotalValue(holdings) > 0.0
    ensures SumOf(Allocation(holdings), PercentageOf) == 100.0
  {
    var total := TotalValue(holdings);
    SharesAddUp(holdings, total);
    assert total / total == 1.0;
  }

  /** The portfolio's P&L over its investment, in percent; 0 without a positive investment. */
  function TotalPnLPercentage(totalValue: real, totalInvestment: real): (p: real)
    ensures totalInvestment <= 0.0 ==> p == 0.0
    ensures totalValue == totalInvestment ==> p == 0.0
  {
    if totalInvestment > 0.0 then (totalValue - totalInvestment) / totalInvestment * 100.0 else 0.0
  }

  /** With a positive investment the P&L percentage has the sign of the P&L; otherwise it is 0. */
  lemma TotalPnLPercentageSign(totalValue: real, totalInvestment: real)
    ensures totalInvestment > 0.0 ==>
      (TotalPnLPercentage(totalValue, totalInvestment) > 0.0 <==> totalValue > totalInvestment) &&
      (TotalPnLPercentage(totalValue, totalInvestment) < 0.0 <==> totalValue < totalInvestment)
    ensures totalInvestment <= 0.0 ==> TotalPnLPercentage(totalValue, totalInvestment) == 0.0
  {
    if totalInvestment > 0.0 {
      var pnl := totalValue - totalInvestment;
      assert pnl / totalInvestment * 100.0 == pnl * (100.0 / totalInvestment);
      assert 100.0 / totalInvestment > 0.0;
    }
  }

  /** The reply's metrics: the two totals, their difference and the P&L percentage. */
  function MetricsOf(holdings: seq<Holding>): (m: AnalysisMetrics)
    ensures m.totalValue == TotalValue(holdings) && m.totalInvestment == TotalInvestment(holdings)
    ensures m.totalPnL == m.totalValue - m.totalInvestment
    ensures m.totalPnLPercentage == TotalPnLPercentage(m.totalValue, m.totalInvestment)
  {
    var value, investment := TotalValue(holdings), TotalInvestment(holdings);
    AnalysisMetrics(value, investment, value - investment, TotalPnLPercentage(value, investment))
  }

  predicate IsConcentrated(item: AllocationItem) { item.percentage > ConcentrationThreshold }

  function RebalanceFor(item: AllocationItem): (r: Recommendation)
    ensures r.kind == "rebalance" && r.priority == "high" && r.symbol == item.symbol
  {
    Recommendation("rebalance", item.symbol, ConcentrationRisk(item.symbol, item.percentage), "high")
  }

  /** The concentration rule, pushed entry by entry over the allocation. */
  function RebalanceRecommendations(allocation: seq<AllocationItem>): seq<Recommendation>
  {
    FilterMap(allocation, IsConcentrated, RebalanceFor)
  }

  /** `(currentPrice - purchasePrice) / purchasePrice * 100`, as JavaScript evaluates it. */
  function HoldingReturn(h: Holding): (q: Quotient)
    ensures q.Finite? <==> h.purchasePrice != 0.0
    ensures q.NotANumber? <==> h.purchasePrice == 0.0 && h.currentPrice == 0.0
  {
    Percent(Divide(h.currentPrice - h.purchasePrice, h.purchasePrice))
  }

  predicate HasReturnSignal(h: Holding)
  {
    Below(HoldingReturn(h), LossThreshold) || Above(HoldingReturn(h), GainThreshold)
  }

  /** A "sell" for a loss beyond 15%, otherwise a "hold" (used only when there is a signal). */
  function PerformanceFor(h: Holding): (r: Recommendation)
    ensures r.symbol == h.symbol
    ensures r.kind == "sell" <==> Below(HoldingReturn(h), LossThreshold)
    ensures (r.kind == "sell" && r.priority == "medium") || (r.kind == "hold" && r.priority == "low")
  {
    var pnl := HoldingReturn(h);
    if Below(pnl, LossThreshold) then Recommendation("sell", h.symbol, Underperforming(h.symbol, pnl), "medium")
    else Recommendation("hold", h.symbol, Outperforming(h.symbol, pnl), "low")
  }

  /** The per-holding return rule, pushed holding by holding. */
  function PerformanceRecommendations(holdings: seq<Holding>): seq<Recommendation>
  {
    FilterMap(holdings, HasReturnSignal, PerformanceFor)
  }

  const Diversify: Recommendation := Recommendation("buy", "DIVERSIFY", TooFewHoldings, "medium")

  function DiversifyRecommendations(count: int): seq<Recommendation>
  {
    if count < MinHoldings then [Diversify] else []
  }

  /** The rules in order: rebalance, then performance, then diversification for small portfolios. */
  function RecommendationsFor(holdings: seq<Holding>): (r: seq<Recommendation>)
    ensures |holdings| < MinHoldings ==>
      r == RebalanceRecommendations(Allocation(holdings)) + PerformanceRecommendations(holdings) + [Diversify]
    ensures |holdings| >= MinHoldings ==>
      r == RebalanceRecommendations(Allocation(holdings)) + PerformanceRecommendations(holdings)
  {
    RebalanceRecommendations(Allocation(holdings))
      + PerformanceRecommendations(holdings)
      + DiversifyRecommendations(|holdings|)
  }

  function AnalysisOf(holdings: seq<Holding>): Analysis
  {
    Analysis(MetricsOf(holdings), Allocation(holdings), RecommendationsFor(holdings))
  }

  /** The handler's reply: 400 when `holdings` is missing or not an array, the analysis otherwise. */
  function Respond(holdings: Option<seq<Holding>>): (r: Response)
    ensures r.BadRequest? <==> holdings.None?
    ensures r.BadRequest? ==> r.status == 400
    ensures r.Analyzed? ==> r.analysis.metrics == MetricsOf(holdings.value)
    ensures r.Analyzed? ==>
      r.analysis.allocation == Allocation(holdings.value) && r.analysis.recommendations == RecommendationsFor(holdings.value)
  {
    if holdings.None? then BadRequest(400, "Invalid holdings array")
    else Analyzed(AnalysisOf(holdings.value))
  }

  /** The handler's first pass: the two totals, and one allocation entry per holding whose
      percentage is still 0. */
  method SumHoldings(hs: seq<Holding>) returns (totalValue: real, totalInvestment: real, allocation: seq<AllocationItem>)
    ensures totalValue == TotalValue(hs) && totalInvestment == TotalInvestment(hs)
    ensures |allocation| == |hs|
    ensures forall k :: 0 <= k < |hs| ==> allocation[k] == AllocationItem(hs[k].symbol, MarketValue(hs[k]), 0.0)
  {
    totalValue, totalInvestment := 0.0, 0.0;
    allocation := [];
    var i := 0;
    while i < |hs|
      invariant 0 <= i <= |hs|
      invariant totalValue == TotalValue(hs[..i]) && totalInvestment == TotalInvestment(hs[..i])
      invariant |allocation| == i
      invariant forall k :: 0 <= k < i ==> allocation[k] == AllocationItem(hs[k].symbol, MarketValue(hs[k]), 0.0)
    {
      var h := hs[i];
      var marketValue := h.currentPrice * h.shares;
      var investmentValue := h.purchasePrice * h.shares;
      totalValue := totalValue + marketValue;
      totalInvestment := totalInvestment + investmentValue;
      allocation := allocation + [AllocationItem(h.symbol, marketValue, 0.0)];
      assert hs[..i + 1][..i] == hs[..i];
      i := i + 1;
    }
    assert hs[..i] == hs;
  }

  /** The handler's second pass: each entry's percentage of the total value. */
  method FillPercentages(hs: seq<Holding>, totalValue: real, entries: seq<AllocationItem>) returns (allocation: seq<AllocationItem>)
    requires totalValue == TotalValue(hs)
    requires |entries| == |hs|
    requires forall k :: 0 <= k < |hs| ==> entries[k] == AllocationItem(hs[k].symbol, MarketValue(hs[k]), 0.0)
    ensures allocation == Allocation(hs)
  {
    allocation := entries;
    var j := 0;
    while j < |allocation|
      invariant 0 <= j <= |allocation| == |hs|
      invariant forall k :: 0 <= k < j ==> allocation[k] == Allocation(hs)[k]
      invariant forall k :: j <= k < |hs| ==> allocation[k] == entries[k]
    {
      var item := allocation[j];
      allocation := allocation[j := item.(percentage := if totalValue > 0.0 then item.value / totalValue * 100.0 else 0.0)];
      j := j + 1;
    }
  }

  /** The concentration rule's loop over the allocation. */
  method PushRebalance(allocation: seq<AllocationItem>) returns (recommendations: seq<Recommendation>)
    ensures recommendations == RebalanceRecommendations(allocation)
  {
    recommendations := [];
    var j := 0;
    while j < |allocation|
      invariant 0 <= j <= |allocation|
      invariant recommendations == RebalanceRecommendations(allocation[..j])
    {
      var item := allocation[j];
      if item.percentage > ConcentrationThreshold {
        recommendations := recommendations
          + [Recommendation("rebalance", item.symbol, ConcentrationRisk(item.symbol, item.percentage), "high")];
      }
      assert allocation[..j + 1][..j] == allocation[..j];
      j := j + 1;
    }
    assert allocation[..j] == allocation;
  }

  /** The return rule's loop over the holdings, appending to what is already there. */
  method PushPerformance(hs: seq<Holding>, before: seq<Recommendation>) returns (recommendations: seq<Recommendation>)
    ensures recommendations == before + PerformanceRecommendations(hs)
  {
    recommendations := before;
    var i := 0;
    while i < |hs|
      invariant 0 <= i <= |hs|
      invariant recommendations == before + PerformanceRecommendations(hs[..i])
    {
      var h := hs[i];
      var pnl := HoldingReturn(h);
      if Below(pnl, LossThreshold) {
        recommendations := recommendations + [Recommendation("sell", h.symbol, Underperforming(h.symbol, pnl), "medium")];
      } else if Above(pnl, GainThreshold) {
        recommendations := recommendations + [Recommendation("hold", h.symbol, Outperforming(h.symbol, pnl), "low")];
      }
      assert hs[..i + 1][..i] == hs[..i];
      i := i + 1;
    }
    assert hs[..i] == hs;
  }

  /** The request handler, step by step as the server runs it: totals and allocation entries,
      the percentages, then the three recommendation rules in turn. */
  method Analyze(holdings: Option<seq<Holding>>) returns (response: Response)
    ensures response == Respond(holdings)
  {
    if holdings.None? {
      return BadRequest(400, "Invalid holdings array");
    }
    var hs := holdings.value;
    var totalValue, totalInvestment, entries := SumHoldings(hs);
    var allocation := FillPercentages(hs, totalValue, entries);
    var totalPnL := totalValue - totalInvestment;
    var totalPnLPercentage := if totalInvestment > 0.0 then totalPnL / totalInvestment * 100.0 else 0.0;
    var recommendations := PushRebalance(allocation);
    recommendations := PushPerformance(hs, recommendations);
    if |hs| < MinHoldings {
      recommendations := recommendations + [Recommendation("buy", "DIVERSIFY", TooFewHoldings, "medium")];
    }
    var metrics := AnalysisMetrics(totalValue, totalInvestment, totalPnL, totalPnLPercentage);
    response := Analyzed(Analysis(metrics, allocation, recommendations));
  }

  /** A "rebalance" is raised for exactly the allocation entries above 25%, in allocation order. */
  lemma RebalanceExactlyForConcentrated(allocation: seq<AllocationItem>)
    ensures RebalanceRecommendations(allocation) == Map(Filter(allocation, IsConcentrated), RebalanceFor)
    ensures forall r :: r in RebalanceRecommendations(allocation) ==> r.kind == "rebalance" && r.priority == "high"
  {
    FilterMapIsMapOfFilter(allocation, IsConcentrated, RebalanceFor);
  }

  /** With a nonzero purchase price the return is the finite percentage change of the price, and
      the rule yields one medium "sell" below -15%, one low "hold" above +20% and nothing between. */
  lemma PerformanceRule(h: Holding)
    requires h.purchasePrice != 0.0
    ensures var pnl := (h.currentPrice - h.purchasePrice) / h.purchasePrice * 100.0;
      && HoldingReturn(h) == Finite(pnl)
      && (HasReturnSignal(h) <==> pnl < LossThreshold || pnl > GainThreshold)
      && (pnl < LossThreshold ==> PerformanceFor(h).kind == "sell" && PerformanceFor(h).priority == "medium")
      && (pnl > GainThreshold ==> PerformanceFor(h).kind == "hold" && PerformanceFor(h).priority == "low")
  {
  }

  /** The return rule gives each holding at most one recommendation, in holding order, and only
      holdings with a signal get one. */
  lemma {:induction false} PerformanceAtMostOnePerHolding(holdings: seq<Holding>)
    ensures PerformanceRecommendations(holdings) == Map(Filter(holdings, HasReturnSignal), PerformanceFor)
    ensures |PerformanceRecommendations(holdings)| <= |holdings|
    ensures forall r :: r in PerformanceRecommendations(holdings) ==>
      (r.kind == "sell" && r.priority == "medium") || (r.kind == "hold" && r.priority == "low")
  {
    FilterMapIsMapOfFilter(holdings, HasReturnSignal, PerformanceFor);
  }

  predicate IsBuy(r: Recommendation) { r.kind == "buy" }

  /** The concentration and return rules never emit a "buy". */
  lemma RulesEmitNoBuy(holdings: seq<Holding>)
    ensures var ruled := RebalanceRecommendations(Allocation(holdings)) + PerformanceRecommendations(holdings);
      forall k :: 0 <= k < |ruled| ==> !IsBuy(ruled[k])
  {
    var rebalance := RebalanceRecommendations(Allocation(holdings));
    var performance := PerformanceRecommendations(holdings);
    RebalanceExactlyForConcentrated(Allocation(holdings));
    PerformanceAtMostOnePerHolding(holdings);
    forall k | 0 <= k < |rebalance + performance|
      ensures !IsBuy((rebalance + performance)[k])
    {
      if k < |rebalance| {
        assert (rebalance + performance)[k] in rebalance;
      } else {
        assert (rebalance + performance)[k] == performance[k - |rebalance|];
      }
    }
  }

  /** The "buy"/"DIVERSIFY" recommendation is the only "buy", it comes last, and it is there
      exactly when the portfolio has fewer than five holdings. */
  lemma DiversifyIsLastAndOnlyBuy(holdings: seq<Holding>)
    ensures var recs := RecommendationsFor(holdings);
      && (|holdings| < MinHoldings <==> |recs| > 0 && recs[|recs| - 1] == Diversify)
      && |Filter(recs, IsBuy)| == (if |holdings| < MinHoldings then 1 else 0)
  {
    var ruled := RebalanceRecommendations(Allocation(holdings)) + PerformanceRecommendations(holdings);
    var diversify := DiversifyRecommendations(|holdings|);
    assert RecommendationsFor(holdings) == ruled + diversify;
    RulesEmitNoBuy(holdings);
    FilterDropsAll(ruled, IsBuy);
    FilterAppend(ruled, diversify, IsBuy);
    if |holdings| >= MinHoldings && |ruled| > 0 {
      assert !IsBuy(ruled[|ruled| - 1]);
    }
  }

  /** Every recommendation the analysis emits has priority "high", "medium" or "low". */
  lemma RecommendationPrioritiesAreKnown(holdings: seq<Holding>)
    ensures forall r :: r in RecommendationsFor(holdings) ==>
      r.priority == "high" || r.priority == "medium" || r.priority == "low"
  {
    RebalanceExactlyForConcentrated(Allocation(holdings));
    PerformanceAtMostOnePerHolding(holdings);
  }
}
