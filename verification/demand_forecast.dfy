/** The demand chart: a placeholder until a forecast exists, then one point per
    hour with the average, the peak and the minimum underneath. */
module DemandChart {
  import opened Common
  import Authority

  /** A chart point: the hour index (labelled `<index>h`) and its demand. */
  datatype ChartPoint = ChartPoint(hour: nat, demand: real)

  datatype ForecastPanel =
    | LoadingPlaceholder
    | Chart(points: seq<ChartPoint>, hours: nat, average: JsNumber, peak: JsNumber, minimum: JsNumber)

  /** The largest value of a non-empty list. */
  function MaxOf(s: seq<real>): (m: real)
    requires |s| > 0
    ensures m in s
    ensures forall i :: 0 <= i < |s| ==> s[i] <= m
  {
    if |s| == 1 then s[0]
    else
      var rest := MaxOf(s[..|s| - 1]);
      if s[|s| - 1] > rest then s[|s| - 1] else rest
  }

  /** The smallest value of a non-empty list. */
  function MinOf(s: seq<real>): (m: real)
    requires |s| > 0
    ensures m in s
    ensures forall i :: 0 <= i < |s| ==> m <= s[i]
  {
    if |s| == 1 then s[0]
    else
      var rest := MinOf(s[..|s| - 1]);
      if s[|s| - 1] < rest then s[|s| - 1] else rest
  }

  /** `Math.max(...s)`: negative infinity for an empty list. */
  function JsMax(s: seq<real>): (m: JsNumber)
    ensures |s| == 0 <==> m == NegativeInfinity
    ensures |s| > 0 ==> m.Finite? && m.value == MaxOf(s)
  {
    if |s| == 0 then NegativeInfinity else Finite(MaxOf(s))
  }

  /** `Math.min(...s)`: positive infinity for an empty list. */
  function JsMin(s: seq<real>): (m: JsNumber)
    ensures |s| == 0 <==> m == PositiveInfinity
    ensures |s| > 0 ==> m.Finite? && m.value == MinOf(s)
  {
    if |s| == 0 then PositiveInfinity else Finite(MinOf(s))
  }

  function PointsOf(values: seq<real>): (points: seq<ChartPoint>)
    ensures |points| == |values|
    ensures forall i :: 0 <= i < |points| ==> points[i] == ChartPoint(i, values[i])
  {
    seq(|values|, i requires 0 <= i < |values| => ChartPoint(i, values[i]))
  }

  /** The component. */
  function ForecastPanelOf(forecast: Option<ForecastData>): (panel: ForecastPanel)
    ensures panel.LoadingPlaceholder? <==> forecast.None? || forecast.value.forecast.None?
  {
    if forecast.None? || forecast.value.forecast.None? then LoadingPlaceholder
    else
      var values := forecast.value.forecast.value;
      Chart(PointsOf(values), |values|, Mean(values), JsMax(values), JsMin(values))
  }

  /** For a non-empty forecast the three figures are finite and ordered: minimum, average, peak, each within the values. */
  lemma FiguresOrdered(values: seq<real>)
    requires |values| > 0
    ensures var panel := ForecastPanelOf(Some(ForecastData(Some(values))));
      panel.hours == |values| &&
      panel.average.Finite? && panel.peak.Finite? && panel.minimum.Finite? &&
      panel.minimum.value <= panel.average.value <= panel.peak.value &&
      panel.peak.value in values && panel.minimum.value in values
  {
    MeanWithin(values, MinOf(values), MaxOf(values));
  }

  /** An empty forecast still renders the chart, with NaN, negative and positive infinity as its figures. */
  lemma EmptyForecastFigures()
    ensures ForecastPanelOf(Some(ForecastData(Some([])))) == Chart([], 0, NaN, NegativeInfinity, PositiveInfinity)
  {
  }

  /** The authority demo forecast: 24 hourly points, every figure within the 80..200 litre band. */
  lemma DemoForecastPanel(draws: seq<real>)
    requires |draws| == Authority.AuthorityDrawCount && AllDraws(draws)
    ensures var panel := ForecastPanelOf(Authority.DemoState(draws).forecast);
      panel.Chart? && panel.hours == 24 &&
      Authority.DemandFloor <= panel.minimum.value && panel.peak.value <= Authority.DemandCeiling &&
      Authority.DemandFloor <= panel.average.value <= Authority.DemandCeiling
  {
    var values := Authority.MockFrameOf(draws).forecast.forecast.value;
    FiguresOrdered(values);
  }
}
