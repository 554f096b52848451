/** The open-interest dashboard's derived figures (frontend OpenInterest/RedesignedDashboard.tsx):
    the key metrics with the maximum-OI strike and the put-call ratio, the sentiment analysis, and
    the sentiment chip shown on the put-call-ratio tab. */
module OpenInterestDashboard {
  import opened Wrappers

  /** One side (call or put) of a strike; its open interest may be missing. */
  datatype SideData = SideData(oi: Option<real>)

  datatype StrikeData = StrikeData(ce: Option<SideData>, pe: Option<SideData>)

  /** The option-chain reply. `strikes` lists the strike map's entries in the order the page
      iterates them (for JavaScript objects: integer-like keys ascending, then insertion order). */
  datatype OIData = OIData(
    underlyingValue: Option<real>,
    putOI: Option<real>,
    callOI: Option<real>,
    totalOI: Option<real>,
    strikes: Option<seq<(string, StrikeData)>>)

  /** `x || 0` on a number that may be missing. */
  function OrZero(x: Option<real>): (r: real)
    ensures x.None? ==> r == 0.0
    ensures x.Some? ==> r == x.value
  {
    if x.Some? then x.value else 0.0
  }

  function SideOI(side: Option<SideData>): real
  {
    if side.Some? then OrZero(side.value.oi) else 0.0
  }

  /** A strike's total open interest, a missing side counting as 0. */
  function StrikeOI(d: StrikeData): real { SideOI(d.ce) + SideOI(d.pe) }

  /** The scan for the largest strike total: starting from 0 and '', an entry replaces the current
      best only when its total is strictly greater. */
  function MaxOIScan(strikes: seq<(string, StrikeData)>): (best: (real, string))
    ensures best.0 >= 0.0
    ensures forall i :: 0 <= i < |strikes| ==> StrikeOI(strikes[i].1) <= best.0
  {
    if strikes == [] then (0.0, "")
    else
      var before := MaxOIScan(strikes[..|strikes| - 1]);
      var last := strikes[|strikes| - 1];
      if StrikeOI(last.1) > before.0 then (StrikeOI(last.1), last.0) else before
  }

  /** The scan finds the first entry whose total is the strict maximum; when no total is positive
      it reports 0 and the empty strike. */
  lemma {:induction false} MaxOIScanIsFirstMaximum(strikes: seq<(string, StrikeData)>)
    ensures var best := MaxOIScan(strikes);
      || (best == (0.0, "") && forall i :: 0 <= i < |strikes| ==> StrikeOI(strikes[i].1) <= 0.0)
      || (exists k :: 0 <= k < |strikes| && best == (StrikeOI(strikes[k].1), strikes[k].0) && best.0 > 0.0
            && forall j :: 0 <= j < k ==> StrikeOI(strikes[j].1) < best.0)
  {
    if strikes != [] {
      var n := |strikes|;
      var prefix := strikes[..n - 1];
      MaxOIScanIsFirstMaximum(prefix);
      var before := MaxOIScan(prefix);
      var last := strikes[n - 1];
      if StrikeOI(last.1) > before.0 {
        assert forall j :: 0 <= j < n - 1 ==> StrikeOI(strikes[j].1) < StrikeOI(last.1) by {
          forall j | 0 <= j < n - 1 ensures StrikeOI(strikes[j].1) < StrikeOI(last.1) {
            assert strikes[j] == prefix[j];
          }
        }
      } else if before == (0.0, "") && forall i :: 0 <= i < |prefix| ==> StrikeOI(prefix[i].1) <= 0.0 {
        assert forall i :: 0 <= i < n ==> StrikeOI(strikes[i].1) <= 0.0 by {
          forall i | 0 <= i < n ensures StrikeOI(strikes[i].1) <= 0.0 {
            if i < n - 1 { assert strikes[i] == prefix[i]; }
          }
        }
      } else {
        var k :| 0 <= k < |prefix| && before == (StrikeOI(prefix[k].1), prefix[k].0) && before.0 > 0.0
          && forall j :: 0 <= j < k ==> StrikeOI(prefix[j].1) < before.0;
        assert strikes[k] == prefix[k];
        assert forall j :: 0 <= j < k ==> strikes[j] == prefix[j];
      }
    }
  }

  /** `toFixed(2)` read back as a number: rounded to the nearest hundredth, halves upward. */
  function Round2(x: real): (r: real)
    ensures r - 0.005 <= x < r + 0.005
    ensures (r * 100.0).Floor as real == r * 100.0
  {
    (x * 100.0 + 0.5).Floor as real / 100.0
  }

  /** The metrics cards. The put and call "changes" are fixed placeholder strings and are not kept. */
  datatype DashboardMetrics = DashboardMetrics(
    spotPrice: real,
    putOI: real,
    callOI: real,
    maxOI: real,
    maxOIStrike: string,
    pcr: real)

  /** The ratio as reported: rounded when both sides are positive, the "0.00" placeholder otherwise. */
  function ReportedPcr(putOI: real, callOI: real): (pcr: real)
    ensures putOI > 0.0 && callOI > 0.0 ==> pcr - 0.005 <= putOI / callOI < pcr + 0.005
    ensures !(putOI > 0.0 && callOI > 0.0) ==> pcr == 0.0
  {
    if putOI > 0.0 && callOI > 0.0 then Round2(putOI / callOI) else 0.0
  }

  /** The cards' figures: none without data; otherwise a maximum at least every strike's total,
      and a put-call ratio that is never negative. */
  function MetricsOf(data: Option<OIData>): (metrics: Option<DashboardMetrics>)
    ensures metrics.None? <==> data.None?
    ensures metrics.Some? ==> metrics.value.maxOI >= 0.0 && metrics.value.pcr >= 0.0
    ensures metrics.Some? ==>
      (metrics.value.maxOI, metrics.value.maxOIStrike)
        == if data.value.strikes.Some? then MaxOIScan(data.value.strikes.value) else (0.0, "")
    ensures metrics.Some? && OrZero(data.value.putOI) > 0.0 && OrZero(data.value.callOI) > 0.0 ==>
      metrics.value.pcr - 0.005 <= OrZero(data.value.putOI) / OrZero(data.value.callOI) < metrics.value.pcr + 0.005
    ensures metrics.Some? && (OrZero(data.value.putOI) <= 0.0 || OrZero(data.value.callOI) <= 0.0) ==>
      metrics.value.pcr == 0.0
    ensures metrics.Some? && data.value.strikes.Some? ==>
      forall i :: 0 <= i < |data.value.strikes.value| ==> StrikeOI(data.value.strikes.value[i].1) <= metrics.value.maxOI
  {
    if data.None? then None
    else
      var d := data.value;
      var best := if d.strikes.Some? then MaxOIScan(d.strikes.value) else (0.0, "");
      var putOI, callOI := OrZero(d.putOI), OrZero(d.callOI);
      Some(DashboardMetrics(OrZero(d.underlyingValue), putOI, callOI, best.0, best.1, ReportedPcr(putOI, callOI)))
  }

  /** `getMetrics()`: null without data; otherwise the cards' figures, scanning the strikes in order. */
  method GetMetrics(data: Option<OIData>) returns (metrics: Option<DashboardMetrics>)
    ensures metrics == MetricsOf(data)
  {
    if data.None? {
      return None;
    }
    var d := data.value;
    var spotPrice := OrZero(d.underlyingValue);
    var putOI := OrZero(d.putOI);
    var callOI := OrZero(d.callOI);
    var maxOI := 0.0;
    var maxOIStrike := "";
    if d.strikes.Some? {
      var strikes := d.strikes.value;
      var i := 0;
      while i < |strikes|
        invariant 0 <= i <= |strikes|
        invariant (maxOI, maxOIStrike) == MaxOIScan(strikes[..i])
      {
        var (strike, strikeData) := strikes[i];
        var strikeOI := SideOI(strikeData.ce) + SideOI(strikeData.pe);
        if strikeOI > maxOI {
          maxOI := strikeOI;
          maxOIStrike := strike;
        }
        assert strikes[..i + 1][..i] == strikes[..i];
        i := i + 1;
      }
      assert strikes[..i] == strikes;
    }
    var pcr := if putOI > 0.0 && callOI > 0.0 then Round2(putOI / callOI) else 0.0;
    metrics := Some(DashboardMetrics(spotPrice, putOI, callOI, maxOI, maxOIStrike, pcr));
  }

  datatype Sentiment = Bullish | Neutral | Bearish

  /** The put-call-ratio thresholds: above 1.2 bearish, below 0.8 bullish, neutral in between. */
  function Classify(pcr: real): (s: Sentiment)
    ensures s == Bearish <==> pcr > 1.2
    ensures s == Bullish <==> pcr < 0.8
    ensures s == Neutral <==> 0.8 <= pcr <= 1.2
  {
    if pcr > 1.2 then Bearish else if pcr < 0.8 then Bullish else Neutral
  }

  function Rank(s: Sentiment): int
  {
    match s
    case Bullish => 0
    case Neutral => 1
    case Bearish => 2
  }

  /** A higher put-call ratio never gives a more bullish reading. */
  lemma ClassifyMonotone(r1: real, r2: real)
    requires r1 <= r2
    ensures Rank(Classify(r1)) <= Rank(Classify(r2))
  {
  }

  /** `analyzeSentiment`: the ratio's class when both sides are positive, neutral otherwise. */
  function AnalysisSentiment(putOI: real, callOI: real): (s: Sentiment)
    ensures putOI <= 0.0 || callOI <= 0.0 ==> s == Neutral
  {
    if putOI > 0.0 && callOI > 0.0 then Classify(putOI / callOI) else Neutral
  }

  /** The analysis in terms of the open interest itself: bearish when puts exceed 1.2 times the
      calls, bullish when they are under 0.8 times, and neutral when either side is not positive. */
  lemma AnalysisSentimentThresholds(putOI: real, callOI: real)
    ensures (putOI <= 0.0 || callOI <= 0.0) ==> AnalysisSentiment(putOI, callOI) == Neutral
    ensures putOI > 0.0 && callOI > 0.0 ==>
      (AnalysisSentiment(putOI, callOI) == Bearish <==> putOI > 1.2 * callOI)
      && (AnalysisSentiment(putOI, callOI) == Bullish <==> putOI < 0.8 * callOI)
  {
    if putOI > 0.0 && callOI > 0.0 {
      RatioAgainstBound(putOI, callOI, 1.2);
      RatioAgainstBound(putOI, callOI, 0.8);
    }
  }

  /** For a positive base, a ratio compared with a bound is the amount compared with the bound times the base. */
  lemma RatioAgainstBound(amount: real, base: real, bound: real)
    requires base > 0.0
    ensures amount / base > bound <==> amount > bound * base
    ensures amount / base < bound <==> amount < bound * base
  {
    var q := amount / base;
    assert q * base == amount;
    ScalingKeepsOrder(q, bound, base);
  }

  lemma ScalingKeepsOrder(x: real, y: real, c: real)
    requires c > 0.0
    ensures x > y <==> x * c > y * c
    ensures x < y <==> x * c < y * c
  {
    assert x * c - y * c == (x - y) * c;
    if x > y {
      assert (x - y) * c > 0.0;
    } else if x < y {
      assert (y - x) * c > 0.0;
    }
  }

  /** The sentiment the page reports for the data it has; none is computed without data. */
  function AnalyzeSentiment(data: Option<OIData>): (s: Option<Sentiment>)
    ensures s.Some? <==> data.Some?
    ensures data.Some? && (OrZero(data.value.putOI) <= 0.0 || OrZero(data.value.callOI) <= 0.0) ==> s == Some(Neutral)
  {
    if data.None? then None else Some(AnalysisSentiment(OrZero(data.value.putOI), OrZero(data.value.callOI)))
  }

  /** The chip on the put-call-ratio tab classifies the reported (rounded) ratio; it is neutral
      when there are no metrics. */
  function ChipSentiment(metrics: Option<DashboardMetrics>): (s: Sentiment)
    ensures metrics.None? ==> s == Neutral
    ensures s == Bullish <==> metrics.Some? && metrics.value.pcr < 0.8
    ensures s == Bearish <==> metrics.Some? && metrics.value.pcr > 1.2
  {
    if metrics.None? then Neutral else Classify(metrics.value.pcr)
  }

  lemma RoundedAbove(r: real)
    ensures Round2(r) > 1.2 <==> r >= 1.205
  {
    var f := (r * 100.0 + 0.5).Floor;
    assert f as real <= r * 100.0 + 0.5 < f as real + 1.0;
    assert Round2(r) > 1.2 <==> f > 120;
  }

  lemma RoundedBelow(r: real)
    ensures Round2(r) < 0.8 <==> r < 0.795
  {
    var f := (r * 100.0 + 0.5).Floor;
    assert f as real <= r * 100.0 + 0.5 < f as real + 1.0;
    assert Round2(r) < 0.8 <==> f < 80;
  }

  /** With both sides positive the chip and the analysis disagree exactly on the two thin bands
      that rounding to hundredths moves across a threshold. */
  lemma ChipDisagreesOnlyNearThresholds(data: OIData)
    requires OrZero(data.putOI) > 0.0 && OrZero(data.callOI) > 0.0
    ensures var r := OrZero(data.putOI) / OrZero(data.callOI);
      ChipSentiment(MetricsOf(Some(data))) != AnalysisSentiment(OrZero(data.putOI), OrZero(data.callOI))
      <==> (1.2 < r < 1.205 || 0.795 <= r < 0.8)
  {
    var r := OrZero(data.putOI) / OrZero(data.callOI);
    RoundedAbove(r);
    RoundedBelow(r);
  }

  /** When either side is zero or missing the chip reads the "0.00" placeholder as bullish, while
      the analysis reports neutral. */
  lemma ChipOnPlaceholder(data: OIData)
    requires OrZero(data.putOI) <= 0.0 || OrZero(data.callOI) <= 0.0
    ensures ChipSentiment(MetricsOf(Some(data))) == Bullish
    ensures AnalysisSentiment(OrZero(data.putOI), OrZero(data.callOI)) == Neutral
  {
  }
}
