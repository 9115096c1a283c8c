/** The insights provider: three insight lists with non-empty defaults and a
    loading flag, refreshed by `loadInsights` from the machine-learning
    service. */
module AiInsights {
  import opened Wrappers
  import opened MlService

  datatype InsightsState = InsightsState(
    recommendations: seq<Recommendation>, anomalies: seq<Anomaly>, forecasts: seq<Forecast>, loading: bool)

  const DefaultRecommendations: seq<Recommendation> := [
    Recommendation("Optimize Inventory Levels", Positive, "8%", "Potential cost reduction"),
    Recommendation("Consolidate Shipments", Positive, "12%", "Logistics savings"),
    Recommendation("Adjust Safety Stock", Positive, "5%", "Inventory cost reduction")
  ]

  const DefaultAnomalies: seq<Anomaly> := [
    Anomaly("Unusual Delay Pattern", "Investigate supplier transportation arrangements"),
    Anomaly("Battery Stock Critical", "Expedite pending battery orders"),
    Anomaly("Quality Deviation", "Contact supplier quality assurance team")
  ]

  const DefaultForecasts: seq<Forecast> := [
    Forecast("Seasonal Demand Spike", Up, "+23%", "Next 3 months"),
    Forecast("Supply Chain Disruption Risk", Down, "-18%", "Delivery reliability"),
    Forecast("Material Cost Trend", Down, "-7%", "Next 6 months")
  ]

  const Initial := InsightsState(DefaultRecommendations, DefaultAnomalies, DefaultForecasts, false)

  /** No list is empty. */
  predicate NonEmpty(st: InsightsState) {
    |st.recommendations| > 0 && |st.anomalies| > 0 && |st.forecasts| > 0
  }

  /** The provider starts with three entries in each list, not loading. */
  lemma InitialState()
    ensures |Initial.recommendations| == 3 && |Initial.anomalies| == 3 && |Initial.forecasts| == 3
    ensures !Initial.loading && NonEmpty(Initial)
  {
  }

  /** `if (data.length > 0) setList(data)`. */
  function KeepUnlessEmpty<T>(current: seq<T>, fetched: seq<T>): (r: seq<T>)
    ensures |r| > 0 <==> |current| > 0 || |fetched| > 0
    ensures r == current || r == fetched
  {
    if |fetched| > 0 then fetched else current
  }

  /** `loadInsights` with what the three fetches settled to (None for a
      rejection). Unconfigured, nothing happens. Otherwise, when all three
      resolve, each list is replaced by a non-empty result only; when any
      rejects, no list changes; loading ends false either way. */
  function LoadInsights(st: InsightsState, configured: bool,
                        recs: Option<seq<Recommendation>>, anomalies: Option<seq<Anomaly>>,
                        forecasts: Option<seq<Forecast>>): (r: InsightsState)
    ensures !configured ==> r == st
    ensures configured ==> !r.loading
    ensures recs.None? || anomalies.None? || forecasts.None? ==>
      r.recommendations == st.recommendations && r.anomalies == st.anomalies && r.forecasts == st.forecasts
    ensures NonEmpty(st) ==> NonEmpty(r)
  {
    if !configured then st
    else if recs.None? || anomalies.None? || forecasts.None? then st.(loading := false)
    else InsightsState(
      KeepUnlessEmpty(st.recommendations, recs.value),
      KeepUnlessEmpty(st.anomalies, anomalies.value),
      KeepUnlessEmpty(st.forecasts, forecasts.value),
      false)
  }

  /** Each list, when all three fetches resolve: replaced exactly when the
      result is non-empty. */
  lemma ReplaceOnlyIfNonEmpty(st: InsightsState, recs: seq<Recommendation>, anomalies: seq<Anomaly>, forecasts: seq<Forecast>)
    ensures var r := LoadInsights(st, true, Some(recs), Some(anomalies), Some(forecasts));
      (r.recommendations == if |recs| > 0 then recs else st.recommendations)
      && (r.anomalies == if |anomalies| > 0 then anomalies else st.anomalies)
      && (r.forecasts == if |forecasts| > 0 then forecasts else st.forecasts)
  {
  }

  /** `loadInsights` against the service; the three calls may fail
      separately. The service's generators never reject. */
  function LoadFromService(st: InsightsState, s: Service, failRecs: bool, failAnomalies: bool, failForecasts: bool): (r: InsightsState)
    ensures !IsConfigured(s) ==> r == st
    ensures IsConfigured(s) ==> !r.loading
    ensures NonEmpty(st) ==> NonEmpty(r)
  {
    LoadInsights(st, IsConfigured(s),
      Some(GenerateRecommendations(s, failRecs)),
      Some(DetectAnomalies(s, failAnomalies)),
      Some(GenerateForecasts(s, failForecasts)))
  }

  /** With a key, each list becomes the service's four entries when its call
      goes through and stays as it was when it fails; without one, nothing
      changes. Starting from the defaults, no list ever becomes empty. */
  lemma LoadFromServiceLaws(st: InsightsState, s: Service, fr: bool, fa: bool, ff: bool)
    ensures var r := LoadFromService(st, s, fr, fa, ff);
      IsConfigured(s) ==>
        (r.recommendations == if fr then st.recommendations else MockRecommendations)
        && (r.anomalies == if fa then st.anomalies else MockAnomalies)
        && (r.forecasts == if ff then st.forecasts else MockForecasts)
        && !r.loading
    ensures !IsConfigured(s) ==> LoadFromService(st, s, fr, fa, ff) == st
    ensures NonEmpty(st) ==> NonEmpty(LoadFromService(st, s, fr, fa, ff))
  {
  }

  /** Any run of loads from a state with no empty list, the initial one
      included, keeps every list non-empty. */
  lemma {:induction false} LoadsKeepLists(st: InsightsState, runs: seq<(Service, bool, bool, bool)>)
    requires NonEmpty(st)
    ensures NonEmpty(LoadAll(st, runs))
    decreases |runs|
  {
    if |runs| > 0 {
      var (s, fr, fa, ff) := runs[0];
      LoadsKeepLists(LoadFromService(st, s, fr, fa, ff), runs[1..]);
    }
  }

  /** Several loads in a row. */
  function LoadAll(st: InsightsState, runs: seq<(Service, bool, bool, bool)>): InsightsState
    decreases |runs|
  {
    if |runs| == 0 then st
    else
      var (s, fr, fa, ff) := runs[0];
      LoadAll(LoadFromService(st, s, fr, fa, ff), runs[1..])
  }
}
