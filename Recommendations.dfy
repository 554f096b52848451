/** The recommendations panel (frontend PortfolioManager/Recommendations.tsx): colours by kind and
    by priority, the empty state, the per-priority lists and the high-priority banner. */
module Recommendations {
  import opened Wrappers
  import opened Seqs
  import opened PortfolioAnalysis

  datatype Palette = SuccessColor | ErrorColor | InfoColor | WarningColor | PrimaryColor

  /** Colour of a recommendation kind; unknown kinds are primary. */
  function RecommendationColor(kind: string): (color: Palette)
    ensures kind == "buy" <==> color == SuccessColor
    ensures kind == "sell" <==> color == ErrorColor
    ensures kind == "hold" <==> color == InfoColor
    ensures kind == "rebalance" <==> color == WarningColor
  {
    match kind
    case "buy" => SuccessColor
    case "sell" => ErrorColor
    case "hold" => InfoColor
    case "rebalance" => WarningColor
    case _ => PrimaryColor
  }

  /** Colour of a priority; unknown priorities are info. */
  function PriorityColor(priority: string): (color: Palette)
    ensures priority == "high" <==> color == ErrorColor
    ensures priority == "medium" <==> color == WarningColor
    ensures priority == "low" <==> color == SuccessColor
    ensures color == InfoColor <==> priority !in {"high", "medium", "low"}
  {
    match priority
    case "high" => ErrorColor
    case "medium" => WarningColor
    case "low" => SuccessColor
    case _ => InfoColor
  }

  /** The panel shows its empty state when there is no analysis, no list, or an empty list. */
  predicate ShowsEmptyState(recommendations: Option<seq<Recommendation>>)
    ensures !ShowsEmptyState(recommendations) ==> recommendations.Some? && |recommendations.value| > 0
  {
    recommendations.None? || |recommendations.value| == 0
  }

  predicate IsHigh(r: Recommendation) { r.priority == "high" }
  predicate IsMedium(r: Recommendation) { r.priority == "medium" }
  predicate IsLow(r: Recommendation) { r.priority == "low" }

  /** The high-priority banner appears when the high list is not empty. */
  predicate ShowsBanner(recommendations: seq<Recommendation>)
    ensures ShowsBanner(recommendations) <==> exists r :: r in recommendations && IsHigh(r)
  {
    var high := Filter(recommendations, IsHigh);
    assert |high| > 0 ==> high[0] in recommendations && IsHigh(high[0]);
    assert forall r :: r in recommendations && IsHigh(r) ==> r in high;
    |high| > 0
  }

  /** The banner appears exactly when some recommendation is high priority. */
  lemma BannerIffSomeHigh(recommendations: seq<Recommendation>)
    ensures ShowsBanner(recommendations) <==> exists i :: 0 <= i < |recommendations| && recommendations[i].priority == "high"
  {
    if exists i :: 0 <= i < |recommendations| && recommendations[i].priority == "high" {
      var i :| 0 <= i < |recommendations| && recommendations[i].priority == "high";
      assert recommendations[i] in Filter(recommendations, IsHigh);
    } else {
      FilterDropsAll(recommendations, IsHigh);
    }
  }

  /** When every priority is high, medium or low, the three lists split the recommendations:
      each one is in the list of its own priority and in no other, and the lengths add up. */
  lemma PriorityListsPartition(recommendations: seq<Recommendation>)
    requires forall i :: 0 <= i < |recommendations| ==> IsHigh(recommendations[i]) || IsMedium(recommendations[i]) || IsLow(recommendations[i])
    ensures |Filter(recommendations, IsHigh)| + |Filter(recommendations, IsMedium)| + |Filter(recommendations, IsLow)|
      == |recommendations|
    ensures forall i :: 0 <= i < |recommendations| ==>
      (recommendations[i] in Filter(recommendations, IsHigh) <==> IsHigh(recommendations[i]))
      && (recommendations[i] in Filter(recommendations, IsMedium) <==> IsMedium(recommendations[i]))
      && (recommendations[i] in Filter(recommendations, IsLow) <==> IsLow(recommendations[i]))
  {
    FilterPartition3(recommendations, IsHigh, IsMedium, IsLow);
  }

  /** The server's recommendations always satisfy that restriction, so for them the three lists
      are a partition. */
  lemma ServerRecommendationsPartition(holdings: seq<PortfolioSlice.Holding>)
    ensures var recs := RecommendationsFor(holdings);
      |Filter(recs, IsHigh)| + |Filter(recs, IsMedium)| + |Filter(recs, IsLow)| == |recs|
  {
    RecommendationPrioritiesAreKnown(holdings);
    var recs := RecommendationsFor(holdings);
    assert forall i :: 0 <= i < |recs| ==> recs[i] in recs;
    PriorityListsPartition(recs);
  }
}
