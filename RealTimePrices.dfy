/** The live-price hook (frontend hooks/useRealTimePrices.ts): which symbols are quoted, which
    quotes become price updates, and the 30-second throttle on dispatching them. */
module RealTimePrices {
  import opened Wrappers
  import opened Seqs
  import opened PortfolioSlice

  /** One entry of the quote service's reply; `error` is absent or a message. */
  datatype Quote = Quote(symbol: string, price: real, error: Option<string>)

  /** Milliseconds that must pass between two dispatched price updates. */
  const MinUpdateInterval: int := 30000

  /** The holdings' symbols without repeats, in order of first appearance. */
  function UniqueSymbols(holdings: seq<Holding>): (symbols: seq<string>)
    ensures NoDuplicates(symbols)
    ensures forall i :: 0 <= i < |holdings| ==> holdings[i].symbol in symbols
    ensures forall s :: s in symbols ==> exists i :: 0 <= i < |holdings| && holdings[i].symbol == s
  {
    var all := Map(holdings, SymbolOf);
    assert forall i :: 0 <= i < |holdings| ==> all[i] == holdings[i].symbol;
    Dedup(all)
  }

  /** Symbols come out in the order of their first holding. */
  lemma UniqueSymbolsInFirstOccurrenceOrder(holdings: seq<Holding>, i: int, j: int)
    requires 0 <= i < j < |UniqueSymbols(holdings)|
    ensures var symbols := UniqueSymbols(holdings);
      FirstIndex(Map(holdings, SymbolOf), symbols[i]) < FirstIndex(Map(holdings, SymbolOf), symbols[j])
  {
    DedupKeepsFirstOccurrenceOrder(Map(holdings, SymbolOf), i, j);
  }

  /** `skip: uniqueSymbols.length === 0`: no holding has a symbol to quote. */
  predicate ShouldSkip(holdings: seq<Holding>)
    ensures ShouldSkip(holdings) ==> forall i :: 0 <= i < |holdings| ==> holdings[i].symbol !in UniqueSymbols(holdings)
  {
    |UniqueSymbols(holdings)| == 0
  }

  /** The quote query is skipped exactly when there are no holdings. */
  lemma ShouldSkipIffNoHoldings(holdings: seq<Holding>)
    ensures ShouldSkip(holdings) <==> holdings == []
  {
    if holdings != [] {
      assert holdings[0].symbol in UniqueSymbols(holdings);
    }
  }

  /** A quote counts when its price is positive and it has no (non-empty) error. */
  predicate Accepted(q: Quote)
    ensures Accepted(q) ==> q.price > 0.0
  {
    q.price > 0.0 && !(q.error.Some? && q.error.value != "")
  }

  /** The update map built quote by quote: a later accepted quote for a symbol overwrites an earlier one. */
  function PriceUpdates(quotes: seq<Quote>): (updates: map<string, real>)
    ensures forall s :: s in updates ==> updates[s] > 0.0
  {
    if quotes == [] then map[]
    else
      var q := quotes[|quotes| - 1];
      var before := PriceUpdates(quotes[..|quotes| - 1]);
      if Accepted(q) then before[q.symbol := q.price] else before
  }

  /** A symbol is in the update map iff some accepted quote names it, and its price is that of
      the last accepted quote for it. */
  lemma PriceUpdatesSpec(quotes: seq<Quote>, symbol: string)
    ensures symbol in PriceUpdates(quotes) <==>
      exists i :: 0 <= i < |quotes| && quotes[i].symbol == symbol && Accepted(quotes[i])
    ensures symbol in PriceUpdates(quotes) ==>
      exists i :: 0 <= i < |quotes| && quotes[i].symbol == symbol && Accepted(quotes[i])
        && PriceUpdates(quotes)[symbol] == quotes[i].price
        && forall k :: i < k < |quotes| ==> !(quotes[k].symbol == symbol && Accepted(quotes[k]))
  {
    PriceUpdatesFromLastAccepted(quotes, symbol);
    PriceUpdatesCoverAccepted(quotes, symbol);
  }

  /** A symbol in the update map carries the price of the last accepted quote that names it. */
  lemma {:induction false} PriceUpdatesFromLastAccepted(quotes: seq<Quote>, symbol: string)
    ensures symbol in PriceUpdates(quotes) ==>
      exists i :: 0 <= i < |quotes| && quotes[i].symbol == symbol && Accepted(quotes[i])
        && PriceUpdates(quotes)[symbol] == quotes[i].price
        && forall k :: i < k < |quotes| ==> !(quotes[k].symbol == symbol && Accepted(quotes[k]))
  {
    if quotes != [] {
      var n := |quotes|;
      var prefix := quotes[..n - 1];
      var q := quotes[n - 1];
      if q.symbol == symbol && Accepted(q) {
        assert PriceUpdates(quotes)[symbol] == q.price;
      } else if symbol in PriceUpdates(prefix) {
        PriceUpdatesFromLastAccepted(prefix, symbol);
        var i :| 0 <= i < n - 1 && prefix[i].symbol == symbol && Accepted(prefix[i])
          && PriceUpdates(prefix)[symbol] == prefix[i].price
          && forall k :: i < k < n - 1 ==> !(prefix[k].symbol == symbol && Accepted(prefix[k]));
        assert quotes[i] == prefix[i];
        assert forall k :: i < k < n - 1 ==> quotes[k] == prefix[k];
      }
    }
  }

  /** Every symbol that some accepted quote names is in the update map. */
  lemma {:induction false} PriceUpdatesCoverAccepted(quotes: seq<Quote>, symbol: string)
    ensures (exists i :: 0 <= i < |quotes| && quotes[i].symbol == symbol && Accepted(quotes[i])) ==>
      symbol in PriceUpdates(quotes)
  {
    if quotes != [] {
      var n := |quotes|;
      var prefix := quotes[..n - 1];
      var q := quotes[n - 1];
      if !(q.symbol == symbol && Accepted(q)) && exists i :: 0 <= i < n && quotes[i].symbol == symbol && Accepted(quotes[i]) {
        var i :| 0 <= i < n && quotes[i].symbol == symbol && Accepted(quotes[i]);
        assert prefix[i] == quotes[i];
        PriceUpdatesCoverAccepted(prefix, symbol);
      }
    }
  }

  /** The `forEach` that fills the update map. */
  method CollectPriceUpdates(quotes: seq<Quote>) returns (updates: map<string, real>)
    ensures updates == PriceUpdates(quotes)
  {
    updates := map[];
    var i := 0;
    while i < |quotes|
      invariant 0 <= i <= |quotes|
      invariant updates == PriceUpdates(quotes[..i])
    {
      var stock := quotes[i];
      if stock.price > 0.0 && !(stock.error.Some? && stock.error.value != "") {
        updates := updates[stock.symbol := stock.price];
      }
      assert quotes[..i + 1][..i] == quotes[..i];
      i := i + 1;
    }
    assert quotes[..i] == quotes;
  }

  /** The hook's state: the time of the last dispatched update, and the store it updates. */
  class PriceFeed {
    var lastUpdate: int
    const store: PortfolioStore

    constructor (store: PortfolioStore)
      ensures this.store == store && lastUpdate == 0
    {
      this.store := store;
      lastUpdate := 0;
    }

    /** Reaction to a new quote reply at time `now`. Nothing happens for a missing or empty reply,
        nor within 30 seconds of the last update; otherwise the accepted prices are dispatched
        when there are any, and only then does `lastUpdate` move to `now`. */
    method OnStockData(stockData: Option<seq<Quote>>, now: int) returns (dispatched: bool)
      modifies this`lastUpdate, store`holdings
      ensures dispatched <==>
        stockData.Some? && |stockData.value| > 0 && now - old(lastUpdate) >= MinUpdateInterval
        && |PriceUpdates(stockData.value)| > 0
      ensures dispatched ==>
        lastUpdate == now && store.holdings == WithPrices(old(store.holdings), PriceUpdates(stockData.value))
      ensures !dispatched ==> lastUpdate == old(lastUpdate) && store.holdings == old(store.holdings)
    {
      dispatched := false;
      if stockData.Some? && |stockData.value| > 0 {
        if now - lastUpdate < MinUpdateInterval {
          return;
        }
        var priceUpdates := CollectPriceUpdates(stockData.value);
        if |priceUpdates| > 0 {
          store.UpdateHoldingPrices(priceUpdates);
          lastUpdate := now;
          dispatched := true;
        }
      }
    }

    /** Manual refresh: a refetch is issued only when the query is not skipped. */
    method RefreshPrices() returns (refetched: bool)
      ensures refetched <==> store.holdings != []
    {
      ShouldSkipIffNoHoldings(store.holdings);
      refetched := !ShouldSkip(store.holdings);
    }
  }
}
