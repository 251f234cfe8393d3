/** The authority dashboard: its mock frame (houses, predictions, a 24-hour
    demand walk), the fetch-or-fallback tick, and the three headline figures. */
module Authority {
  import opened Common
  import opened MockData

  /** Draws one authority mock frame takes: houses, predictions, 24 walk steps, the tank level. */
  const AuthorityDrawCount := 325
  const ForecastHours := 24
  const WalkStart := 120.0
  const DemandFloor := 80.0
  const DemandCeiling := 200.0
  /** Shown when the sensor data has no usable tank level. */
  const FallbackTankLevel := 75.0

  /** `baseValue` after the given steps: each step adds `(draw - 0.5) * 20`, and nothing clamps it. */
  function WalkBase(steps: seq<real>): real {
    if |steps| == 0 then WalkStart
    else WalkBase(steps[..|steps| - 1]) + (steps[|steps| - 1] - 0.5) * 20.0
  }

  /** `Math.max(80, Math.min(200, v))`. */
  function ClampDemand(v: real): (r: real)
    ensures DemandFloor <= r <= DemandCeiling
    ensures DemandFloor <= v <= DemandCeiling ==> r == v
    ensures v < DemandFloor ==> r == DemandFloor
    ensures v > DemandCeiling ==> r == DemandCeiling
  {
    if v > DemandCeiling then DemandCeiling else if v < DemandFloor then DemandFloor else v
  }

  /** The mock forecast: hour i shows the clamped value of the walk after i + 1 steps. */
  function MockForecastOf(steps: seq<real>): (forecast: seq<real>)
    ensures |forecast| == |steps|
    ensures forall i :: 0 <= i < |steps| ==> DemandFloor <= forecast[i] <= DemandCeiling
  {
    seq(|steps|, i requires 0 <= i < |steps| => ClampDemand(WalkBase(steps[..i + 1])))
  }

  /** The walk never moves more than 10 per step from where it started. */
  lemma {:induction false} WalkDrift(steps: seq<real>)
    requires AllDraws(steps)
    ensures WalkStart - 10.0 * |steps| as real <= WalkBase(steps) <= WalkStart + 10.0 * |steps| as real
  {
    if |steps| > 0 {
      WalkDrift(steps[..|steps| - 1]);
    }
  }

  /** The forecast loop: `baseValue` is updated every hour and only the pushed value is clamped. */
  method GenerateForecast(steps: seq<real>) returns (forecast: seq<real>)
    requires |steps| == ForecastHours && AllDraws(steps)
    ensures forecast == MockForecastOf(steps)
    ensures |forecast| == ForecastHours
    ensures forall i :: 0 <= i < |forecast| ==> DemandFloor <= forecast[i] <= DemandCeiling
  {
    forecast := [];
    var baseValue := WalkStart;
    for i := 0 to ForecastHours
      invariant |forecast| == i
      invariant baseValue == WalkBase(steps[..i])
      invariant forall k :: 0 <= k < i ==> forecast[k] == ClampDemand(WalkBase(steps[..k + 1]))
    {
      assert steps[..i + 1][..i] == steps[..i];
      baseValue := baseValue + (steps[i] - 0.5) * 20.0;
      forecast := forecast + [ClampDemand(baseValue)];
    }
  }

  /** Two hours of a walk where the clamped value and the running value part ways:
      the walk climbs to 208 and then drops to 198, so the second hour shows 198,
      where clamping the running value itself would have shown 190. */
  lemma RunningValueIsNotClamped()
    ensures var steps := [0.9, 0.9, 0.9, 0.9, 0.9, 0.9, 0.9, 0.9, 0.9, 0.9, 0.9, 0.0];
      WalkBase(steps[..11]) == 208.0 && MockForecastOf(steps)[10] == 200.0 &&
      WalkBase(steps) == 198.0 && MockForecastOf(steps)[11] == 198.0
  {
    var steps := [0.9, 0.9, 0.9, 0.9, 0.9, 0.9, 0.9, 0.9, 0.9, 0.9, 0.9, 0.0];
    var k := 0;
    while k < 11
      invariant 0 <= k <= 11
      invariant WalkBase(steps[..k]) == WalkStart + 8.0 * k as real
    {
      assert steps[..k + 1][..k] == steps[..k];
      k := k + 1;
    }
    assert steps[..12] == steps;
    assert steps[..12][..11] == steps[..11];
  }

  datatype AuthorityFrame = AuthorityFrame(sensorData: SensorData, predictions: seq<Prediction>, forecast: ForecastData)

  /** The frame `generateMockData` builds from the given draws. */
  function MockFrameOf(draws: seq<real>): AuthorityFrame
    requires |draws| == AuthorityDrawCount && AllDraws(draws)
  {
    var houses := seq(MockHouseCount, i requires 0 <= i < MockHouseCount => MockHouseAt(draws, i));
    AuthorityFrame(
      SensorData(Some(houses), Some(draws[324] * 40.0 + 60.0)),
      MockPredictions(draws, houses),
      ForecastData(Some(MockForecastOf(draws[300..324]))))
  }

  /** `generateMockData`: 50 houses, one prediction per house, 24 forecast values in [80, 200]. */
  method GenerateMockData(draws: seq<real>) returns (frame: AuthorityFrame)
    requires |draws| == AuthorityDrawCount && AllDraws(draws)
    ensures frame == MockFrameOf(draws)
    ensures frame.sensorData.houses.Some? && frame.forecast.forecast.Some?
    ensures |frame.sensorData.houses.value| == |frame.predictions| == 50
    ensures forall i :: 0 <= i < 50 ==>
      var h := frame.sensorData.houses.value[i];
      1.0 <= h.pressure <= 5.0 && 50.0 <= h.flowRate <= 200.0 && 10.0 <= h.temperature <= 30.0
    ensures forall i :: 0 <= i < 50 ==>
      var p := frame.predictions[i];
      p.rfPrediction == p.lrPrediction &&
      (if draws[150 + 3 * i] < LeakRate
       then p.rfPrediction == 1 && 0.7 <= p.rfProbability < 1.0 && 0.7 <= p.lrProbability < 1.0
       else p.rfPrediction == 0 && 0.0 <= p.rfProbability < 0.3 && 0.0 <= p.lrProbability < 0.3)
    ensures |frame.forecast.forecast.value| == ForecastHours
    ensures forall i :: 0 <= i < ForecastHours ==> DemandFloor <= frame.forecast.forecast.value[i] <= DemandCeiling
    ensures frame.sensorData.tankLevel.Some? && 60.0 <= frame.sensorData.tankLevel.value < 100.0
  {
    var houses := GenerateHouses(draws);
    var predictions := MockPredictions(draws, houses);
    var forecast := GenerateForecast(draws[300..324]);
    frame := AuthorityFrame(SensorData(Some(houses), Some(draws[324] * 40.0 + 60.0)), predictions, ForecastData(Some(forecast)));
    assert houses == seq(MockHouseCount, i requires 0 <= i < MockHouseCount => MockHouseAt(draws, i));
  }

  /** The five `useState` values of the component. */
  datatype ViewState = ViewState(
    sensorData: Option<SensorData>,
    predictions: Option<seq<Prediction>>,
    forecast: Option<ForecastData>,
    loading: bool,
    isDemo: bool)

  /** The state after the catch branch has stored a mock frame. */
  function DemoState(draws: seq<real>): ViewState
    requires |draws| == AuthorityDrawCount && AllDraws(draws)
  {
    var m := MockFrameOf(draws);
    ViewState(Some(m.sensorData), Some(m.predictions), Some(m.forecast), false, true)
  }

  /** All three requests answer: sensors, then predict with the sensor reply as body, then forecast. */
  predicate AllDelivered(sensorReply: Reply<SensorData>, predict: SensorData -> Reply<seq<Prediction>>, forecastReply: Reply<ForecastData>) {
    sensorReply.Delivered? && predict(sensorReply.data).Delivered? && forecastReply.Delivered?
  }

  class AuthorityView {
    var sensorData: Option<SensorData>
    var predictions: Option<seq<Prediction>>
    var forecast: Option<ForecastData>
    var loading: bool
    var isDemo: bool
    /** Every state React can render: the initial one, the state a tick leaves
        behind at each `await` it suspends on, and the state it ends with. */
    ghost var Rendered: seq<ViewState>

    function State(): ViewState
      reads this
    {
      ViewState(sensorData, predictions, forecast, loading, isDemo)
    }

    /** The initial state: loading, not demo, no data. */
    constructor ()
      ensures State() == ViewState(None, None, None, true, false)
      ensures Rendered == [State()]
    {
      sensorData, predictions, forecast := None, None, None;
      loading, isDemo := true, false;
      Rendered := [ViewState(None, None, None, true, false)];
    }

    /** One tick of `fetchData`; the setters run between the awaits, as in the villager view. */
    method FetchData(
      sensorReply: Reply<SensorData>,
      predict: SensorData -> Reply<seq<Prediction>>,
      forecastReply: Reply<ForecastData>,
      draws: seq<real>)
      requires |draws| == AuthorityDrawCount && AllDraws(draws)
      modifies this
      ensures AllDelivered(sensorReply, predict, forecastReply) ==>
        State() == ViewState(Some(sensorReply.data), Some(predict(sensorReply.data).data), Some(forecastReply.data), false, false)
      ensures !AllDelivered(sensorReply, predict, forecastReply) ==> State() == DemoState(draws)
      ensures !loading
      // the state left on screen while the predict request is pending: new sensors, old predictions and forecast
      ensures sensorReply.Delivered? ==>
        |Rendered| > |old(Rendered)| + 1 &&
        Rendered[|old(Rendered)|] == old(State()).(sensorData := Some(sensorReply.data))
      // the state left on screen while the forecast request is pending
      ensures sensorReply.Delivered? && predict(sensorReply.data).Delivered? ==>
        |Rendered| == |old(Rendered)| + 3 &&
        Rendered[|old(Rendered)| + 1] == old(State()).(sensorData := Some(sensorReply.data), predictions := Some(predict(sensorReply.data).data))
      ensures sensorReply.Failed? ==> |Rendered| == |old(Rendered)| + 1
      ensures sensorReply.Delivered? && predict(sensorReply.data).Failed? ==> |Rendered| == |old(Rendered)| + 2
      ensures Rendered[..|old(Rendered)|] == old(Rendered) && Rendered[|Rendered| - 1] == State()
      // loading is only ever set to false
      ensures forall k :: |old(Rendered)| <= k < |Rendered| ==> (Rendered[k].loading ==> old(loading))
    {
      if sensorReply.Delivered? {
        sensorData := Some(sensorReply.data);
        Rendered := Rendered + [State()];
        var predictReply := predict(sensorReply.data);
        if predictReply.Delivered? {
          predictions := Some(predictReply.data);
          Rendered := Rendered + [State()];
          if forecastReply.Delivered? {
            forecast := Some(forecastReply.data);
            loading := false;
            isDemo := false;
            Rendered := Rendered + [State()];
            return;
          }
        }
      }
      var mockData := GenerateMockData(draws);
      sensorData := Some(mockData.sensorData);
      predictions := Some(mockData.predictions);
      forecast := Some(mockData.forecast);
      loading := false;
      isDemo := true;
      Rendered := Rendered + [State()];
    }
  }

  /** `totalLeaks`: predictions flagged by either model; 0 without predictions. */
  function TotalLeaks(predictions: Option<seq<Prediction>>): (n: nat)
    ensures predictions.None? ==> n == 0
    ensures predictions.Some? ==> n <= |predictions.value|
    ensures predictions.Some? ==> (n == 0 <==> forall i :: 0 <= i < |predictions.value| ==> !Flagged(predictions.value[i]))
  {
    if predictions.Some? then CountFlagged(predictions.value) else 0
  }

  /** `sensorData?.tank_level || 75`: a missing or zero level falls back to 75. */
  function TankLevel(sensorData: Option<SensorData>): (level: real)
    ensures level != 0.0
    ensures sensorData.Some? && sensorData.value.tankLevel.Some? && sensorData.value.tankLevel.value != 0.0 ==>
      level == sensorData.value.tankLevel.value
    ensures sensorData.None? || sensorData.value.tankLevel.None? || sensorData.value.tankLevel.value == 0.0 ==>
      level == FallbackTankLevel
  {
    if sensorData.Some? && sensorData.value.tankLevel.Some? && sensorData.value.tankLevel.value != 0.0
    then sensorData.value.tankLevel.value
    else FallbackTankLevel
  }

  /** `avgPressure`: 0 without houses, otherwise the sum of pressures over their number
      shown with `toFixed(2)` (NaN for an empty list). */
  function AvgPressure(sensorData: Option<SensorData>): (avg: JsNumber)
    ensures sensorData.None? || sensorData.value.houses.None? ==> avg == Finite(0.0)
    ensures sensorData.Some? && sensorData.value.houses.Some? ==>
      (avg.NaN? <==> |sensorData.value.houses.value| == 0)
    ensures sensorData.Some? && sensorData.value.houses.Some? && |sensorData.value.houses.value| > 0 ==>
      var n := |sensorData.value.houses.value| as real;
      var total := Sum(Pressures(sensorData.value.houses.value));
      avg.Finite? &&
      (total / n >= 0.0 ==> total / n - 0.005 < avg.value <= total / n + 0.005) &&
      (total / n < 0.0 ==> total / n - 0.005 <= avg.value < total / n + 0.005)
  {
    if sensorData.Some? && sensorData.value.houses.Some?
    then
      var m := Mean(Pressures(sensorData.value.houses.value));
      if m.Finite? then Finite(ToFixed(m.value, 2)) else m
    else Finite(0.0)
  }

  function Pressures(houses: seq<HouseReading>): (ps: seq<real>)
    ensures |ps| == |houses| && forall i :: 0 <= i < |houses| ==> ps[i] == houses[i].pressure
  {
    seq(|houses|, i requires 0 <= i < |houses| => houses[i].pressure)
  }

  /** The average pressure of a non-empty house list lies between its lowest and highest pressure,
      up to the half cent `toFixed(2)` may add or take; bounds on the cent grid hold exactly. */
  lemma AvgPressureWithin(sensorData: Option<SensorData>, lo: int, hi: int)
    requires sensorData.Some? && sensorData.value.houses.Some? && |sensorData.value.houses.value| > 0
    requires forall i :: 0 <= i < |sensorData.value.houses.value| ==>
      lo as real / 100.0 <= sensorData.value.houses.value[i].pressure <= hi as real / 100.0
    ensures AvgPressure(sensorData).Finite? && lo as real / 100.0 <= AvgPressure(sensorData).value <= hi as real / 100.0
  {
    var m := Mean(Pressures(sensorData.value.houses.value));
    MeanWithin(Pressures(sensorData.value.houses.value), lo as real / 100.0, hi as real / 100.0);
    assert Pow10(2) == 100.0;
    ToFixedWithin(m.value, 2, lo, hi);
  }

  /** A negative average on a half cent is shown rounded away from zero: one house at -0.125 shows -0.13. */
  lemma AvgPressureNegativeTie()
    ensures AvgPressure(Some(SensorData(Some([HouseReading(-0.125, 0.0, 0.0)]), None))) == Finite(-0.13)
  {
    var ps := Pressures([HouseReading(-0.125, 0.0, 0.0)]);
    assert ps == [-0.125];
    assert Sum(ps) == Sum(ps[..0]) + ps[0] == -0.125;
    NegativeTiesAwayFromZero();
  }

  /** In demo mode the headline figures are a pressure in [1, 5] bar and a tank level in [60, 100). */
  lemma DemoFigures(draws: seq<real>)
    requires |draws| == AuthorityDrawCount && AllDraws(draws)
    ensures var s := DemoState(draws);
      AvgPressure(s.sensorData).Finite? && 1.0 <= AvgPressure(s.sensorData).value <= 5.0 &&
      60.0 <= TankLevel(s.sensorData) < 100.0 &&
      TotalLeaks(s.predictions) <= 50
  {
    var s := DemoState(draws);
    AvgPressureWithin(s.sensorData, 100, 500);
  }
}
