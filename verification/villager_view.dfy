/** The villager dashboard: its mock frame (houses, predictions, allocations)
    and the fetch-or-fallback tick that drives its five pieces of state. */
module Villager {
  import opened Common
  import opened MockData

  /** Draws one villager mock frame takes: houses, predictions, 50 allocations, the tank level. */
  const VillagerDrawCount := 351

  datatype VillagerFrame = VillagerFrame(sensorData: SensorData, predictions: seq<Prediction>, schedule: ScheduleData)

  /** The frame `generateMockData` builds from the given draws. */
  function MockFrameOf(draws: seq<real>): VillagerFrame
    requires |draws| == VillagerDrawCount && AllDraws(draws)
  {
    var houses := seq(MockHouseCount, i requires 0 <= i < MockHouseCount => MockHouseAt(draws, i));
    VillagerFrame(
      SensorData(Some(houses), Some(draws[350] * 40.0 + 60.0)),
      MockPredictions(draws, houses),
      ScheduleData(Some(seq(MockHouseCount, i requires 0 <= i < MockHouseCount => draws[300 + i] * 100.0 + 80.0))))
  }

  /** `generateMockData`: 50 houses, 50 predictions and 50 allocations, index-aligned. */
  method GenerateMockData(draws: seq<real>) returns (frame: VillagerFrame)
    requires |draws| == VillagerDrawCount && AllDraws(draws)
    ensures frame == MockFrameOf(draws)
    ensures frame.sensorData.houses.Some? && frame.schedule.allocations.Some?
    ensures |frame.sensorData.houses.value| == |frame.predictions| == |frame.schedule.allocations.value| == 50
    ensures forall i :: 0 <= i < 50 ==>
      var h := frame.sensorData.houses.value[i];
      1.0 <= h.pressure <= 5.0 && 50.0 <= h.flowRate <= 200.0 && 10.0 <= h.temperature <= 30.0
    ensures forall i :: 0 <= i < 50 ==>
      var p := frame.predictions[i];
      p.rfPrediction == p.lrPrediction &&
      (if draws[150 + 3 * i] < LeakRate
       then p.rfPrediction == 1 && 0.7 <= p.rfProbability < 1.0 && 0.7 <= p.lrProbability < 1.0
       else p.rfPrediction == 0 && 0.0 <= p.rfProbability < 0.3 && 0.0 <= p.lrProbability < 0.3)
    ensures forall i :: 0 <= i < 50 ==> 80.0 <= frame.schedule.allocations.value[i] < 180.0
    ensures frame.sensorData.tankLevel.Some? && 60.0 <= frame.sensorData.tankLevel.value < 100.0
  {
    var houses := GenerateHouses(draws);
    var predictions := MockPredictions(draws, houses);
    var allocations := seq(|houses|, i requires 0 <= i < |houses| => draws[300 + i] * 100.0 + 80.0);
    frame := VillagerFrame(SensorData(Some(houses), Some(draws[350] * 40.0 + 60.0)), predictions, ScheduleData(Some(allocations)));
    assert houses == seq(MockHouseCount, i requires 0 <= i < MockHouseCount => MockHouseAt(draws, i));
  }

  /** The five `useState` values of the component. */
  datatype ViewState = ViewState(
    sensorData: Option<SensorData>,
    predictions: Option<seq<Prediction>>,
    schedule: Option<ScheduleData>,
    loading: bool,
    isDemo: bool)

  /** The state after the catch branch has stored a mock frame. */
  function DemoState(draws: seq<real>): ViewState
    requires |draws| == VillagerDrawCount && AllDraws(draws)
  {
    var m := MockFrameOf(draws);
    ViewState(Some(m.sensorData), Some(m.predictions), Some(m.schedule), false, true)
  }

  /** All three requests answer: sensors, then predict with the sensor reply as body, then schedule. */
  predicate AllDelivered(sensorReply: Reply<SensorData>, predict: SensorData -> Reply<seq<Prediction>>, scheduleReply: Reply<ScheduleData>) {
    sensorReply.Delivered? && predict(sensorReply.data).Delivered? && scheduleReply.Delivered?
  }

  class VillagerView {
    var sensorData: Option<SensorData>
    var predictions: Option<seq<Prediction>>
    var schedule: Option<ScheduleData>
    var loading: bool
    var isDemo: bool
    /** Every state React can render: the initial one, the state a tick leaves
        behind at each `await` it suspends on, and the state it ends with. */
    ghost var Rendered: seq<ViewState>

    function State(): ViewState
      reads this
    {
      ViewState(sensorData, predictions, schedule, loading, isDemo)
    }

    /** The initial state: loading, not demo, no data. */
    constructor ()
      ensures State() == ViewState(None, None, None, true, false)
      ensures Rendered == [State()]
    {
      sensorData, predictions, schedule := None, None, None;
      loading, isDemo := true, false;
      Rendered := [ViewState(None, None, None, true, false)];
    }

    /** One tick of `fetchData`. Each setter runs as soon as its request answers,
        so a later failure leaves a partial state visible until the catch branch
        replaces all three fields with one mock frame. */
    method FetchData(
      sensorReply: Reply<SensorData>,
      predict: SensorData -> Reply<seq<Prediction>>,
      scheduleReply: Reply<ScheduleData>,
      draws: seq<real>)
      requires |draws| == VillagerDrawCount && AllDraws(draws)
      modifies this
      ensures AllDelivered(sensorReply, predict, scheduleReply) ==>
        State() == ViewState(Some(sensorReply.data), Some(predict(sensorReply.data).data), Some(scheduleReply.data), false, false)
      ensures !AllDelivered(sensorReply, predict, scheduleReply) ==> State() == DemoState(draws)
      ensures !loading
      // the state left on screen while the predict request is pending: new sensors, old predictions and schedule
      ensures sensorReply.Delivered? ==>
        |Rendered| > |old(Rendered)| + 1 &&
        Rendered[|old(Rendered)|] == old(State()).(sensorData := Some(sensorReply.data))
      // the state left on screen while the schedule request is pending
      ensures sensorReply.Delivered? && predict(sensorReply.data).Delivered? ==>
        |Rendered| == |old(Rendered)| + 3 &&
        Rendered[|old(Rendered)| + 1] == old(State()).(sensorData := Some(sensorReply.data), predictions := Some(predict(sensorReply.data).data))
      ensures sensorReply.Failed? ==> |Rendered| == |old(Rendered)| + 1
      ensures sensorReply.Delivered? && predict(sensorReply.data).Failed? ==> |Rendered| == |old(Rendered)| + 2
      ensures Rendered[..|old(Rendered)|] == old(Rendered) && Rendered[|Rendered| - 1] == State()
      // loading is only ever set to false
      ensures forall k :: |old(Rendered)| <= k < |Rendered| ==> (Rendered[k].loading ==> old(loading))
    {
      if sensorReply.Delivered? {
        sensorData := Some(sensorReply.data);
        Rendered := Rendered + [State()];
        var predictReply := predict(sensorReply.data);
        if predictReply.Delivered? {
          predictions := Some(predictReply.data);
          Rendered := Rendered + [State()];
          if scheduleReply.Delivered? {
            schedule := Some(scheduleReply.data);
            loading := false;
            isDemo := false;
            Rendered := Rendered + [State()];
            return;
          }
        }
      }
      var mockData := GenerateMockData(draws);
      sensorData := Some(mockData.sensorData);
      predictions := Some(mockData.predictions);
      schedule := Some(mockData.schedule);
      loading := false;
      isDemo := true;
      Rendered := Rendered + [State()];
    }
  }
}
