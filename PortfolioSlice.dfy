/** The portfolio part of the front-end store (frontend/src/features/portfolio/portfolioSlice.ts):
    the user's holdings, the latest metrics, the benchmark symbol, a loading flag and an error,
    with the reducers that change them in place. */
module PortfolioSlice {
  import opened Wrappers
  import opened Seqs
  import opened Market

  datatype HoldingType = StockHolding | OptionHolding

  /** One position: a stock, or an option contract on an underlying. */
  datatype Holding = Holding(
    id: string,
    symbol: string,
    kind: HoldingType,
    shares: real,
    currentPrice: real,
    purchasePrice: real,
    triggerPrice: Option<real>,
    optionType: Option<OptionSide>,
    strike: Option<real>,
    expiry: Option<string>)

  function SymbolOf(h: Holding): string { h.symbol }

  /** What the holding is worth at its current price. */
  function MarketValue(h: Holding): real { h.currentPrice * h.shares }

  /** What was paid for the holding. */
  function Investment(h: Holding): real { h.purchasePrice * h.shares }

  datatype Metrics = Metrics(
    totalValue: real,
    totalInvestment: real,
    totalPnL: real,
    totalPnLPercentage: real,
    dayChange: real,
    dayChangePercentage: real)

  const DefaultBenchmark: string := "SPY"

  /** `holdings.findIndex(h => h.id === id)`: the first position holding `id`, or -1. */
  method FindHoldingIndex(holdings: seq<Holding>, id: string) returns (index: int)
    ensures -1 <= index < |holdings|
    ensures index == -1 <==> forall j :: 0 <= j < |holdings| ==> holdings[j].id != id
    ensures index != -1 ==> holdings[index].id == id
    ensures forall j :: 0 <= j < index ==> holdings[j].id != id
  {
    index := 0;
    while index < |holdings|
      invariant 0 <= index <= |holdings|
      invariant forall j :: 0 <= j < index ==> holdings[j].id != id
    {
      if holdings[index].id == id {
        return;
      }
      index := index + 1;
    }
    index := -1;
  }

  /** The holding list after `updateHolding(payload)`: only the first holding with the payload's
      id is replaced. */
  function ReplaceFirst(holdings: seq<Holding>, payload: Holding): (r: seq<Holding>)
    ensures |r| == |holdings|
    ensures forall i :: 0 <= i < |r| ==> r[i] == holdings[i] || r[i] == payload
  {
    if holdings == [] then []
    else if holdings[0].id == payload.id then [payload] + holdings[1..]
    else [holdings[0]] + ReplaceFirst(holdings[1..], payload)
  }

  /** When the first matching holding sits at `k`, exactly position `k` is overwritten. */
  lemma {:induction false} ReplaceFirstAt(holdings: seq<Holding>, payload: Holding, k: int)
    requires 0 <= k < |holdings| && holdings[k].id == payload.id
    requires forall j :: 0 <= j < k ==> holdings[j].id != payload.id
    ensures ReplaceFirst(holdings, payload) == holdings[k := payload]
  {
    if k > 0 {
      ReplaceFirstAt(holdings[1..], payload, k - 1);
      assert holdings[k := payload] == [holdings[0]] + holdings[1..][k - 1 := payload];
    }
  }

  /** When no holding has the payload's id, nothing changes. */
  lemma {:induction false} ReplaceFirstWithoutMatch(holdings: seq<Holding>, payload: Holding)
    requires forall j :: 0 <= j < |holdings| ==> holdings[j].id != payload.id
    ensures ReplaceFirst(holdings, payload) == holdings
  {
    if holdings != [] {
      ReplaceFirstWithoutMatch(holdings[1..], payload);
    }
  }

  /** The holding after `updateHoldingPrices(prices)`: a new current price when its symbol has one. */
  function Repriced(h: Holding, prices: map<string, real>): (r: Holding)
    ensures r.(currentPrice := h.currentPrice) == h
    ensures h.symbol in prices ==> r.currentPrice == prices[h.symbol]
    ensures h.symbol !in prices ==> r == h
  {
    if h.symbol in prices then h.(currentPrice := prices[h.symbol]) else h
  }

  function WithPrices(holdings: seq<Holding>, prices: map<string, real>): (r: seq<Holding>)
    ensures |r| == |holdings|
    ensures forall i :: 0 <= i < |r| ==> r[i].id == holdings[i].id && r[i].symbol == holdings[i].symbol
  {
    Map(holdings, h => Repriced(h, prices))
  }

  /** A price update only touches current prices: the list keeps its length and order, and every
      holding keeps every other field; a holding whose symbol has no price keeps its price too. */
  lemma WithPricesChangesOnlyPrices(holdings: seq<Holding>, prices: map<string, real>, i: int)
    requires 0 <= i < |holdings|
    ensures |WithPrices(holdings, prices)| == |holdings|
    ensures WithPrices(holdings, prices)[i].(currentPrice := holdings[i].currentPrice) == holdings[i]
    ensures WithPrices(holdings, prices)[i].currentPrice
         == if holdings[i].symbol in prices then prices[holdings[i].symbol] else holdings[i].currentPrice
  {
  }

  /** Applying the same prices twice is the same as applying them once. */
  lemma WithPricesIdempotent(holdings: seq<Holding>, prices: map<string, real>)
    ensures WithPrices(WithPrices(holdings, prices), prices) == WithPrices(holdings, prices)
  {
  }

  class PortfolioStore {
    var holdings: seq<Holding>
    var metrics: Option<Metrics>
    var benchmark: string
    var isLoading: bool
    var error: Option<string>

    /** `initialState`. */
    constructor ()
      ensures holdings == [] && metrics == None && benchmark == DefaultBenchmark
      ensures !isLoading && error == None
    {
      holdings := [];
      metrics := None;
      benchmark := DefaultBenchmark;
      isLoading := false;
      error := None;
    }

    method AddHolding(payload: Holding)
      modifies this`holdings
      ensures holdings == old(holdings) + [payload]
    {
      holdings := holdings + [payload];
    }

    method UpdateHolding(payload: Holding)
      modifies this`holdings
      ensures holdings == ReplaceFirst(old(holdings), payload)
    {
      var index := FindHoldingIndex(holdings, payload.id);
      if index != -1 {
        ReplaceFirstAt(holdings, payload, index);
        holdings := holdings[index := payload];
      } else {
        ReplaceFirstWithoutMatch(holdings, payload);
      }
    }

    method RemoveHolding(id: string)
      modifies this`holdings
      ensures holdings == Filter(old(holdings), (h: Holding) => h.id != id)
    {
      holdings := Filter(holdings, (h: Holding) => h.id != id);
    }

    method SetMetrics(payload: Metrics)
      modifies this`metrics
      ensures metrics == Some(payload)
    {
      metrics := Some(payload);
    }

    method SetBenchmark(payload: string)
      modifies this`benchmark
      ensures benchmark == payload
    {
      benchmark := payload;
    }

    method SetLoading(payload: bool)
      modifies this`isLoading
      ensures isLoading == payload
    {
      isLoading := payload;
    }

    method SetError(payload: Option<string>)
      modifies this`error
      ensures error == payload
    {
      error := payload;
    }

    /** Empties the holdings and forgets metrics and error; benchmark and loading flag stay. */
    method ClearPortfolio()
      modifies this`holdings, this`metrics, this`error
      ensures holdings == [] && metrics == None && error == None
    {
      holdings := [];
      metrics := None;
      error := None;
    }

    /** Overwrites, holding by holding, the current price of every holding whose symbol has a price. */
    method UpdateHoldingPrices(prices: map<string, real>)
      modifies this`holdings
      ensures holdings == WithPrices(old(holdings), prices)
    {
      var i := 0;
      while i < |holdings|
        invariant 0 <= i <= |holdings| == |old(holdings)|
        invariant forall k :: 0 <= k < i ==> holdings[k] == Repriced(old(holdings)[k], prices)
        invariant forall k :: i <= k < |holdings| ==> holdings[k] == old(holdings)[k]
      {
        if holdings[i].symbol in prices {
          holdings := holdings[i := holdings[i].(currentPrice := prices[holdings[i].symbol])];
        }
        i := i + 1;
      }
    }
  }
}
