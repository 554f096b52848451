/** The open-interest-change panel (frontend OpenInterest/OIChange.tsx): which expiries are shown
    in the header and combined into the chart, when the filtered data exists, and the total call
    and put open-interest changes over it. */
module OIChange {
  import opened Wrappers
  import opened Seqs
  import opened OpenInterestDashboard

  datatype Expiry = Expiry(date: string, chosen: bool)

  /** One side of a strike row; its change in open interest may be missing. */
  datatype Leg = Leg(changeinOpenInterest: Option<real>)

  datatype DataItem = DataItem(strikePrice: real, ce: Option<Leg>, pe: Option<Leg>)

  /** The option-chain data as this panel uses it: the spot price and whether the per-expiry
      grouping is present. The grouping's contents are only read by the combining step. */
  datatype TransformedData = TransformedData(underlyingValue: real, grouped: bool)

  datatype StrikeRange = StrikeRange(min: Option<real>, max: Option<real>)

  predicate IsChosen(e: Expiry) { e.chosen }

  function DateOf(e: Expiry): string { e.date }

  /** `date.slice(0, -5)`: the date without its last five characters (empty when it is shorter). */
  function HeaderDate(e: Expiry): (d: string)
    ensures |e.date| >= 5 ==> |d| == |e.date| - 5
    ensures |e.date| < 5 ==> d == ""
    ensures d <= e.date
  {
    var keep := if |e.date| >= 5 then |e.date| - 5 else 0;
    e.date[..keep]
  }

  /** A `reduce` that pushes `f(e)` for each chosen expiry, as a loop. */
  method CollectChosen(expiries: seq<Expiry>, f: Expiry -> string) returns (out: seq<string>)
    ensures out == Map(Filter(expiries, IsChosen), f)
  {
    out := [];
    var i := 0;
    while i < |expiries|
      invariant 0 <= i <= |expiries|
      invariant out == FilterMap(expiries[..i], IsChosen, f)
    {
      if expiries[i].chosen {
        out := out + [f(expiries[i])];
      }
      assert expiries[..i + 1][..i] == expiries[..i];
      i := i + 1;
    }
    assert expiries[..i] == expiries;
    FilterMapIsMapOfFilter(expiries, IsChosen, f);
  }

  /** The header's dates: for each chosen expiry, in order, its date without the last five
      characters; nothing when there is no expiry list. */
  method ExpiryDates(expiries: Option<seq<Expiry>>) returns (dates: Option<seq<string>>)
    ensures expiries.None? ==> dates.None?
    ensures expiries.Some? ==> dates == Some(Map(Filter(expiries.value, IsChosen), HeaderDate))
  {
    if expiries.None? {
      return None;
    }
    var chosen := CollectChosen(expiries.value, HeaderDate);
    dates := Some(chosen);
  }

  /** The dates passed to the combining step: the chosen ones, in order, unchanged. */
  method ChosenExpiries(expiries: seq<Expiry>) returns (dates: seq<string>)
    ensures dates == Map(Filter(expiries, IsChosen), DateOf)
  {
    dates := CollectChosen(expiries, DateOf);
  }

  /** The header shows exactly the chosen expiries: one date per chosen expiry, none for the others. */
  lemma HeaderShowsChosenOnly(expiries: seq<Expiry>)
    ensures |Map(Filter(expiries, IsChosen), HeaderDate)| == |Filter(expiries, IsChosen)|
    ensures (forall i :: 0 <= i < |expiries| ==> !expiries[i].chosen) ==> Map(Filter(expiries, IsChosen), HeaderDate) == []
    ensures (forall i :: 0 <= i < |expiries| ==> expiries[i].chosen) ==> Map(Filter(expiries, IsChosen), HeaderDate) == Map(expiries, HeaderDate)
  {
    if forall i :: 0 <= i < |expiries| ==> !expiries[i].chosen {
      FilterDropsAll(expiries, IsChosen);
    }
    if forall i :: 0 <= i < |expiries| ==> expiries[i].chosen {
      FilterKeepsAll(expiries, IsChosen);
    }
  }

  /** The combined data: present only when the data and its grouping are, and there is an expiry
      list; it combines the chosen expiries. `combine` stands for the shared combining routine. */
  function FormattedData(data: Option<TransformedData>, expiries: Option<seq<Expiry>>,
                         combine: (TransformedData, seq<string>) -> seq<DataItem>): (r: Option<seq<DataItem>>)
    ensures r.Some? <==> data.Some? && data.value.grouped && expiries.Some?
    ensures r.Some? ==> r.value == combine(data.value, Map(Filter(expiries.value, IsChosen), DateOf))
  {
    if data.Some? && data.value.grouped && expiries.Some? then
      Some(combine(data.value, Map(Filter(expiries.value, IsChosen), DateOf)))
    else None
  }

  /** The data restricted to the strike range: present only when the combined data is and both
      range bounds are set. `restrict` stands for the shared range filter. */
  function FilteredData(formatted: Option<seq<DataItem>>, range: StrikeRange,
                        restrict: (seq<DataItem>, real, real) -> seq<DataItem>): (r: Option<seq<DataItem>>)
    ensures r.Some? <==> formatted.Some? && range.min.Some? && range.max.Some?
    ensures r.Some? ==> r.value == restrict(formatted.value, range.min.value, range.max.value)
  {
    if formatted.Some? && range.min.Some? && range.max.Some? then
      Some(restrict(formatted.value, range.min.value, range.max.value))
    else None
  }

  function LegChange(leg: Option<Leg>): real
  {
    if leg.Some? then OrZero(leg.value.changeinOpenInterest) else 0.0
  }

  function CallChange(item: DataItem): real { LegChange(item.ce) }

  function PutChange(item: DataItem): real { LegChange(item.pe) }

  /** The total call change: the rows' call changes added in order, a missing one counting as 0;
      nothing without filtered data (an empty list still totals 0). */
  function TotalCallOIChange(filtered: Option<seq<DataItem>>): (total: Option<real>)
    ensures total.Some? <==> filtered.Some?
    ensures filtered == Some([]) ==> total == Some(0.0)
  {
    if filtered.Some? then Some(SumOf(filtered.value, CallChange)) else None
  }

  function TotalPutOIChange(filtered: Option<seq<DataItem>>): (total: Option<real>)
    ensures total.Some? <==> filtered.Some?
    ensures filtered == Some([]) ==> total == Some(0.0)
  {
    if filtered.Some? then Some(SumOf(filtered.value, PutChange)) else None
  }

  predicate ReportsCallChange(item: DataItem) { item.ce.Some? && item.ce.value.changeinOpenInterest.Some? }

  /** Rows without a reported call change add nothing: the total is the sum over the rows that have one. */
  lemma {:induction false} MissingCallChangesAddNothing(items: seq<DataItem>)
    ensures SumOf(items, CallChange) == SumOf(Filter(items, ReportsCallChange), CallChange)
  {
    if items != [] {
      var n := |items|;
      var prefix := items[..n - 1];
      var last := items[n - 1];
      MissingCallChangesAddNothing(prefix);
      assert items == prefix + [last];
      assert SumOf(items, CallChange) == SumOf(prefix, CallChange) + CallChange(last) by {
        assert items[..n - 1] == prefix;
      }
      FilterAppend(prefix, [last], ReportsCallChange);
      SumOfAppend(Filter(prefix, ReportsCallChange), Filter([last], ReportsCallChange), CallChange);
      if ReportsCallChange(last) {
        assert Filter([last], ReportsCallChange) == [last];
        assert SumOf([last], CallChange) == CallChange(last);
      } else {
        assert Filter([last], ReportsCallChange) == [];
      }
    }
  }

  /** The totals split over any split of the rows. */
  lemma TotalsAreAdditive(a: seq<DataItem>, b: seq<DataItem>)
    ensures TotalCallOIChange(Some(a + b)).value == TotalCallOIChange(Some(a)).value + TotalCallOIChange(Some(b)).value
    ensures TotalPutOIChange(Some(a + b)).value == TotalPutOIChange(Some(a)).value + TotalPutOIChange(Some(b)).value
  {
    SumOfAppend(a, b, CallChange);
    SumOfAppend(a, b, PutChange);
  }

  /** The spot price passed to the chart: the data's, when there is data. */
  function UnderlyingPrice(data: Option<TransformedData>): (price: Option<real>)
    ensures price.Some? <==> data.Some?
    ensures data.Some? ==> price.value == data.value.underlyingValue
  {
    if data.Some? then Some(data.value.underlyingValue) else None
  }
}
