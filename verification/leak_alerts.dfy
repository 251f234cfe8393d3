/** The data behind the leak alert panel: the flagged predictions, each with its
    1-based house number and the sensor reading of that house. */
module LeakAlerts {
  import opened Common

  /** One alert row: the prediction, `houseId` and the attached `house` (none when
      there are no houses, or when `houses[houseId - 1]` is undefined). */
  datatype LeakAlert = LeakAlert(prediction: Prediction, houseId: nat, house: Option<HouseReading>)

  /** An empty alert list shows the "no leaks" panel instead of alert rows. */
  datatype PanelBody = NoLeaksPanel | AlertRows(rows: seq<LeakAlert>)

  datatype AlertPanel = AlertPanel(leaks: seq<LeakAlert>, countLabel: string, body: PanelBody)

  /** `sensorData?.houses ? sensorData.houses[i] : null`. */
  function HouseAt(sensorData: Option<SensorData>, i: nat): (h: Option<HouseReading>)
    ensures h.Some? <==> sensorData.Some? && sensorData.value.houses.Some? && i < |sensorData.value.houses.value|
    ensures h.Some? ==> h.value == sensorData.value.houses.value[i]
  {
    if sensorData.Some? && sensorData.value.houses.Some? && i < |sensorData.value.houses.value|
    then Some(sensorData.value.houses.value[i])
    else None
  }

  /** The `filter` then `map` over `predictions[from..]`. `indexOf` finds each
      prediction object at its own position, so the house number is that position plus one. */
  function AlertsFrom(predictions: seq<Prediction>, sensorData: Option<SensorData>, from: nat): (leaks: seq<LeakAlert>)
    requires from <= |predictions|
    decreases |predictions| - from
    ensures |leaks| <= |predictions| - from
    // each alert is a flagged prediction under its 1-based position, with the house at that position
    ensures forall j :: 0 <= j < |leaks| ==>
      from < leaks[j].houseId <= |predictions| &&
      leaks[j].prediction == predictions[leaks[j].houseId - 1] &&
      Flagged(leaks[j].prediction) &&
      leaks[j].house == HouseAt(sensorData, leaks[j].houseId - 1)
    // alerts keep the order of the predictions
    ensures forall j, k :: 0 <= j < k < |leaks| ==> leaks[j].houseId < leaks[k].houseId
  {
    if from == |predictions| then []
    else
      var rest := AlertsFrom(predictions, sensorData, from + 1);
      if Flagged(predictions[from])
      then [LeakAlert(predictions[from], from + 1, HouseAt(sensorData, from))] + rest
      else rest
  }

  /** Every flagged prediction at or after `from` has its alert. */
  lemma {:induction false} AlertsFromComplete(predictions: seq<Prediction>, sensorData: Option<SensorData>, from: nat, i: nat)
    requires from <= i < |predictions| && Flagged(predictions[i])
    decreases |predictions| - from
    ensures exists j :: 0 <= j < |AlertsFrom(predictions, sensorData, from)| && AlertsFrom(predictions, sensorData, from)[j].houseId == i + 1
  {
    var leaks := AlertsFrom(predictions, sensorData, from);
    var rest := AlertsFrom(predictions, sensorData, from + 1);
    var head := LeakAlert(predictions[from], from + 1, HouseAt(sensorData, from));
    if i == from {
      assert leaks == [head] + rest;
      assert leaks[0].houseId == i + 1;
    } else {
      AlertsFromComplete(predictions, sensorData, from + 1, i);
      var j :| 0 <= j < |rest| && rest[j].houseId == i + 1;
      if Flagged(predictions[from]) {
        assert leaks == [head] + rest;
        assert leaks[j + 1] == rest[j];
      } else {
        assert leaks == rest;
      }
    }
  }

  /** The number of alerts is the number of flagged predictions. */
  lemma {:induction false} AlertsFromCount(predictions: seq<Prediction>, sensorData: Option<SensorData>, from: nat)
    requires from <= |predictions|
    decreases |predictions| - from
    ensures |AlertsFrom(predictions, sensorData, from)| == CountFlagged(predictions[from..])
  {
    if from < |predictions| {
      AlertsFromCount(predictions, sensorData, from + 1);
      CountFlaggedCons(predictions[from..]);
      assert predictions[from..][1..] == predictions[from + 1..];
    }
  }

  /** Counting from the front agrees with counting from the back. */
  lemma {:induction false} CountFlaggedCons(s: seq<Prediction>)
    requires |s| > 0
    ensures CountFlagged(s) == (if Flagged(s[0]) then 1 else 0) + CountFlagged(s[1..])
  {
    if |s| > 1 {
      CountFlaggedCons(s[..|s| - 1]);
      assert s[..|s| - 1][1..] == s[1..][..|s[1..]| - 1];
    }
  }

  /** `Leak` for exactly one alert, `Leaks` otherwise. */
  function CountLabel(n: nat): (word: string)
    ensures word == "Leak" <==> n == 1
    ensures word == "Leaks" <==> n != 1
  {
    if n == 1 then "Leak" else "Leaks"
  }

  /** The component: nothing without predictions, else the alerts, the count label and the body. */
  function LeakAlertsPanel(predictions: Option<seq<Prediction>>, sensorData: Option<SensorData>): (panel: Option<AlertPanel>)
    ensures panel.None? <==> predictions.None?
    ensures panel.Some? ==> (panel.value.body.NoLeaksPanel? <==> |panel.value.leaks| == 0)
  {
    if predictions.None? then None
    else
      var leaks := AlertsFrom(predictions.value, sensorData, 0);
      Some(AlertPanel(leaks, CountLabel(|leaks|), if |leaks| == 0 then NoLeaksPanel else AlertRows(leaks)))
  }

  /** The alerts the panel lists. */
  function PanelLeaks(predictions: seq<Prediction>, sensorData: Option<SensorData>): (leaks: seq<LeakAlert>)
    ensures |leaks| == CountFlagged(predictions)
  {
    AlertsFromCount(predictions, sensorData, 0);
    assert predictions[0..] == predictions;
    LeakAlertsPanel(Some(predictions), sensorData).value.leaks
  }

  /** One alert per flagged prediction: as many alerts as flagged predictions, and a
      prediction has an alert under its 1-based position exactly when either model flags it. */
  lemma LeakAlertsExact(predictions: seq<Prediction>, sensorData: Option<SensorData>)
    ensures |PanelLeaks(predictions, sensorData)| == CountFlagged(predictions)
    ensures forall i :: 0 <= i < |predictions| ==>
      (Flagged(predictions[i]) <==>
       exists j :: 0 <= j < |PanelLeaks(predictions, sensorData)| && PanelLeaks(predictions, sensorData)[j].houseId == i + 1)
  {
    var leaks := AlertsFrom(predictions, sensorData, 0);
    assert PanelLeaks(predictions, sensorData) == leaks;
    forall i | 0 <= i < |predictions|
      ensures Flagged(predictions[i]) <==> exists j :: 0 <= j < |leaks| && leaks[j].houseId == i + 1
    {
      if Flagged(predictions[i]) {
        AlertsFromComplete(predictions, sensorData, 0, i);
      }
    }
  }
}
