/** The per-row figures of the holdings table (frontend PortfolioManager/HoldingsTable.tsx):
    market value, P&L, P&L percentage, the row's up/down sign and the percentage's '+' prefix. */
module HoldingsTable {
  import opened JsNumbers
  import opened PortfolioSlice
  import PortfolioAnalysis
  import Seqs

  /** Profit or loss of a holding: current market value minus what it cost. */
  function PnL(h: Holding): (pnl: real)
    ensures pnl == (h.currentPrice - h.purchasePrice) * h.shares
    ensures pnl >= 0.0 <==> MarketValue(h) >= Investment(h)
  {
    MarketValue(h) - Investment(h)
  }

  /** The P&L as a percentage of the cost basis, with JavaScript's result when the basis is 0:
      NaN for a zero P&L, otherwise an infinity whose sign is the P&L's, flipped when the zero
      basis `purchasePrice * shares` is -0. */
  function PnLPercentage(h: Holding): (q: Quotient)
    ensures Investment(h) != 0.0 ==> q == Finite(PnL(h) / Investment(h) * 100.0)
    ensures Investment(h) == 0.0 ==> (q.NotANumber? <==> PnL(h) == 0.0)
    ensures Investment(h) == 0.0 ==>
      (q.PlusInfinity? <==> (PnL(h) > 0.0 <==> !ProductIsNegativeZero(h.purchasePrice, h.shares)) && PnL(h) != 0.0)
    ensures Investment(h) == 0.0 ==>
      (q.MinusInfinity? <==> (PnL(h) < 0.0 <==> !ProductIsNegativeZero(h.purchasePrice, h.shares)) && PnL(h) != 0.0)
  {
    // x / -0 is -x / +0
    if ProductIsNegativeZero(h.purchasePrice, h.shares) then Percent(Divide(-PnL(h), 0.0))
    else Percent(Divide(PnL(h), Investment(h)))
  }

  /** A formatted percentage: whether it carries a leading '+', and the number it shows. */
  datatype PercentText = PercentText(plusSign: bool, value: Quotient)

  /** `formatPercentage`: a '+' for every value at or above zero, zero included; NaN and -Infinity get none. */
  function FormatPercentage(value: Quotient): (text: PercentText)
    ensures text.value == value
    ensures text.plusSign <==> value.PlusInfinity? || (value.Finite? && value.value >= 0.0)
  {
    PercentText(AtLeast(value, 0.0), value)
  }

  /** What one table row shows about a holding's value and performance. */
  datatype Row = Row(
    marketValue: real,
    pnl: real,
    isPositive: bool,
    displayedPnL: real,
    percentage: PercentText)

  function RowOf(h: Holding): (row: Row)
    ensures row.marketValue == h.currentPrice * h.shares
    ensures row.pnl == PnL(h)
    ensures row.isPositive <==> row.pnl >= 0.0
    ensures row.displayedPnL >= 0.0 && (row.displayedPnL == row.pnl || row.displayedPnL == -row.pnl)
    ensures row.percentage.value == PnLPercentage(h)
  {
    var pnl := PnL(h);
    Row(MarketValue(h), pnl, pnl >= 0.0, if pnl < 0.0 then -pnl else pnl, FormatPercentage(PnLPercentage(h)))
  }

  /** With a positive cost basis the percentage is finite, equals the price change over the
      purchase price, and has the sign of the P&L; so the row's colour and the '+' agree. */
  lemma PercentageWithPositiveBasis(h: Holding)
    requires Investment(h) > 0.0
    ensures h.purchasePrice != 0.0 && h.shares != 0.0
    ensures PnLPercentage(h) == Finite((h.currentPrice - h.purchasePrice) / h.purchasePrice * 100.0)
    ensures PnLPercentage(h).value > 0.0 <==> PnL(h) > 0.0
    ensures PnLPercentage(h).value < 0.0 <==> PnL(h) < 0.0
    ensures RowOf(h).percentage.plusSign <==> RowOf(h).isPositive
  {
    var c, p, s := h.currentPrice, h.purchasePrice, h.shares;
    assert p != 0.0 && s != 0.0;
    var ratio := PnL(h) / Investment(h);
    assert ratio == (c - p) * s / (p * s);
    assert (c - p) * s / (p * s) == (c - p) / p;
    assert ratio == PnL(h) * (1.0 / Investment(h));
    assert 1.0 / Investment(h) > 0.0;
  }

  /** For a holding with a positive number of shares the table's percentage is the same number
      the server's analysis computes for it, a zero purchase price included. */
  lemma PercentageMatchesAnalysis(h: Holding)
    requires h.shares > 0.0
    ensures PnLPercentage(h) == PortfolioAnalysis.HoldingReturn(h)
  {
    var c, p, s := h.currentPrice, h.purchasePrice, h.shares;
    assert PnL(h) == (c - p) * s;
    assert Investment(h) == p * s;
    if p != 0.0 {
      assert (c - p) * s / (p * s) == (c - p) / p;
    } else {
      assert Investment(h) == 0.0;
      assert (c - p) * s > 0.0 <==> c - p > 0.0;
      assert (c - p) * s < 0.0 <==> c - p < 0.0;
    }
  }

  /** A holding bought at price 0 with a negative share count and a positive current price has a
      negative P&L, so its row is shown as a loss, yet its percentage is +Infinity and carries a
      '+': the basis `0 * shares` is -0. */
  lemma ZeroPriceShortShowsPlusInfinity(h: Holding)
    requires h.purchasePrice == 0.0 && h.shares < 0.0 && h.currentPrice > 0.0
    ensures !RowOf(h).isPositive
    ensures PnLPercentage(h) == PlusInfinity && RowOf(h).percentage.plusSign
  {
    assert PnL(h) == h.currentPrice * h.shares;
    assert h.currentPrice * h.shares < 0.0 by {
      assert h.currentPrice * (-h.shares) > 0.0;
    }
  }

  /** Deleting a row dispatches `removeHolding` with that row's id. */
  method HandleDelete(store: PortfolioStore, id: string)
    modifies store`holdings
    ensures store.holdings == Seqs.Filter(old(store.holdings), (h: Holding) => h.id != id)
  {
    store.RemoveHolding(id);
  }
}
