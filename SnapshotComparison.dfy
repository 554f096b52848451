/** The snapshot-comparison dialog (frontend CustomAlerts/SnapshotComparison.tsx): the percentage
    change of total, call and put open interest from a snapshot to the current data, bucketed at
    plus and minus 5%. */
module SnapshotComparison {
  import opened Wrappers
  import opened OpenInterestDashboard
  import opened CustomAlerts

  datatype Indicator = TrendingUp | TrendingDown | Flat

  datatype TextColor = SuccessMain | ErrorMain | TextSecondary

  /** The change as text: "N/A", or the percentage with a '+' when it is positive. */
  datatype ChangeText = NotAvailable | Signed(plusSign: bool, change: real)

  /** Percentage change from `oldValue` to `newValue`. */
  function Change(oldValue: real, newValue: real): real
    requires oldValue != 0.0
  {
    (newValue - oldValue) / oldValue * 100.0
  }

  /** Zero stands for a missing value: `!oldValue || !newValue`. */
  predicate Comparable(oldValue: real, newValue: real)
    ensures Comparable(oldValue, newValue) <==> oldValue * newValue != 0.0
  {
    oldValue != 0.0 && newValue != 0.0
  }

  /** `getChangeIndicator`: up above +5%, down below -5%, flat in between or without both values. */
  function ChangeIndicator(oldValue: real, newValue: real): (i: Indicator)
    ensures i == TrendingUp <==> Comparable(oldValue, newValue) && Change(oldValue, newValue) > 5.0
    ensures i == TrendingDown <==> Comparable(oldValue, newValue) && Change(oldValue, newValue) < -5.0
  {
    if !Comparable(oldValue, newValue) then Flat
    else
      var change := Change(oldValue, newValue);
      if change > 5.0 then TrendingUp else if change < -5.0 then TrendingDown else Flat
  }

  /** `getChangeValue`: "N/A" without both values, otherwise the change with a '+' when it is positive. */
  function ChangeValue(oldValue: real, newValue: real): (t: ChangeText)
    ensures t.NotAvailable? <==> !Comparable(oldValue, newValue)
    ensures t.Signed? ==> t.change == Change(oldValue, newValue) && (t.plusSign <==> t.change > 0.0)
  {
    if !Comparable(oldValue, newValue) then NotAvailable
    else
      var change := Change(oldValue, newValue);
      Signed(change > 0.0, change)
  }

  /** `getChangeColor`: green above +5%, red below -5%, grey in between or without both values. */
  function ChangeColor(oldValue: real, newValue: real): (c: TextColor)
    ensures c == SuccessMain <==> Comparable(oldValue, newValue) && Change(oldValue, newValue) > 5.0
    ensures c == ErrorMain <==> Comparable(oldValue, newValue) && Change(oldValue, newValue) < -5.0
  {
    if !Comparable(oldValue, newValue) then TextSecondary
    else
      var change := Change(oldValue, newValue);
      if change > 5.0 then SuccessMain else if change < -5.0 then ErrorMain else TextSecondary
  }

  /** The three helpers agree: up is green, down is red, and otherwise it is grey, with "N/A"
      exactly when a value is missing. */
  lemma HelpersAgree(oldValue: real, newValue: real)
    ensures ChangeIndicator(oldValue, newValue) == TrendingUp <==> ChangeColor(oldValue, newValue) == SuccessMain
    ensures ChangeIndicator(oldValue, newValue) == TrendingDown <==> ChangeColor(oldValue, newValue) == ErrorMain
    ensures ChangeIndicator(oldValue, newValue) == Flat <==> ChangeColor(oldValue, newValue) == TextSecondary
    ensures ChangeValue(oldValue, newValue) == NotAvailable <==> !Comparable(oldValue, newValue)
    ensures !Comparable(oldValue, newValue) ==>
      ChangeIndicator(oldValue, newValue) == Flat && ChangeColor(oldValue, newValue) == TextSecondary
  {
  }

  /** For a positive base, a percentage of it compared with a bound is the amount compared with
      the bound's share of the base. */
  lemma PercentAgainstBound(amount: real, base: real, bound: real)
    requires base > 0.0
    ensures amount / base * 100.0 > bound <==> amount > bound / 100.0 * base
    ensures amount / base * 100.0 < bound <==> amount < bound / 100.0 * base
  {
    RatioAgainstBound(amount, base, bound / 100.0);
  }

  /** For a positive old value the buckets are simple bounds on the new value: up above 105% of
      it, down below 95%, and a '+' exactly when the value grew. */
  lemma BucketsForPositiveOldValue(oldValue: real, newValue: real)
    requires oldValue > 0.0 && newValue != 0.0
    ensures ChangeIndicator(oldValue, newValue) == TrendingUp <==> newValue > 1.05 * oldValue
    ensures ChangeIndicator(oldValue, newValue) == TrendingDown <==> newValue < 0.95 * oldValue
    ensures ChangeValue(oldValue, newValue).plusSign <==> newValue > oldValue
  {
    PercentAgainstBound(newValue - oldValue, oldValue, 5.0);
    PercentAgainstBound(newValue - oldValue, oldValue, -5.0);
    PercentAgainstBound(newValue - oldValue, oldValue, 0.0);
  }

  /** One summary card: what is compared, its colour and its text. */
  datatype Card = Card(metric: string, color: TextColor, value: ChangeText)

  /** A card compares the two figures, a missing one counting as 0: "N/A" and grey unless both
      are present and non-zero. */
  function CardFor(metric: string, oldValue: Option<real>, newValue: Option<real>): (card: Card)
    ensures card.metric == metric
    ensures card.value.NotAvailable? <==> OrZero(oldValue) == 0.0 || OrZero(newValue) == 0.0
    ensures card.value.NotAvailable? ==> card.color == TextSecondary
    ensures card.color == ChangeColor(OrZero(oldValue), OrZero(newValue))
    ensures card.value == ChangeValue(OrZero(oldValue), OrZero(newValue))
  {
    Card(metric, ChangeColor(OrZero(oldValue), OrZero(newValue)), ChangeValue(OrZero(oldValue), OrZero(newValue)))
  }

  function FieldOf(data: Option<OIData>, field: OIData -> Option<real>): Option<real>
  {
    if data.Some? then field(data.value) else None
  }

  /** The dialog renders nothing without a snapshot or current data; otherwise it shows the total,
      call and put cards, each comparing the snapshot's figure with the current one. */
  function Dialog(snapshot: Option<Snapshot>, currentData: Option<OIData>): (cards: Option<seq<Card>>)
    ensures cards.None? <==> snapshot.None? || currentData.None?
    ensures cards.Some? ==>
      |cards.value| == 3 && cards.value[0].metric == "Total OI Change"
      && cards.value[1].metric == "Call OI Change"
      && cards.value[2].metric == "Put OI Change"
    ensures cards.Some? ==>
      var before, now := snapshot.value.data, currentData.value;
      var total := OrZero(if before.Some? then before.value.totalOI else None);
      var call := OrZero(if before.Some? then before.value.callOI else None);
      var put := OrZero(if before.Some? then before.value.putOI else None);
      && cards.value[0].color == ChangeColor(total, OrZero(now.totalOI))
      && cards.value[0].value == ChangeValue(total, OrZero(now.totalOI))
      && cards.value[1].color == ChangeColor(call, OrZero(now.callOI))
      && cards.value[1].value == ChangeValue(call, OrZero(now.callOI))
      && cards.value[2].color == ChangeColor(put, OrZero(now.putOI))
      && cards.value[2].value == ChangeValue(put, OrZero(now.putOI))
  {
    if snapshot.None? || currentData.None? then None
    else
      var before := snapshot.value.data;
      Some([
        CardFor("Total OI Change", FieldOf(before, (d: OIData) => d.totalOI), currentData.value.totalOI),
        CardFor("Call OI Change", FieldOf(before, (d: OIData) => d.callOI), currentData.value.callOI),
        CardFor("Put OI Change", FieldOf(before, (d: OIData) => d.putOI), currentData.value.putOI)])
  }

  /** A snapshot saved without data shows "N/A" on every card. */
  lemma SnapshotWithoutDataIsNotAvailable(snapshot: Snapshot, currentData: OIData)
    requires snapshot.data.None?
    ensures var cards := Dialog(Some(snapshot), Some(currentData)).value;
      forall i :: 0 <= i < |cards| ==> cards[i].value == NotAvailable && cards[i].color == TextSecondary
  {
  }
}
