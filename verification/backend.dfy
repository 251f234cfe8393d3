/** The computation bodies of the Flask handlers: the model-less `/predict`,
    the day-numbered `/forecast` and the proportional or equal `/schedule`.
    A request body is a JSON value; every exception inside a handler becomes
    a 400 reply. */
module Backend {
  import opened Common

  /** A parsed JSON request body. */
  datatype JValue =
    | JNull
    | JBool(b: bool)
    | JNum(n: real)
    | JStr(s: string)
    | JList(items: seq<JValue>)
    | JObj(fields: map<string, JValue>)

  /** A handler's reply: a JSON payload with status 200, or an error body with status 400. */
  datatype Response<T> = Success(payload: T) | BadRequest

  function StatusCode<T>(r: Response<T>): (code: int)
    ensures code == 200 <==> r.Success?
    ensures code == 400 <==> r.BadRequest?
  {
    if r.Success? then 200 else 400
  }

  /** `data.get(key, default)`; only an object has `get`, anything else raises. */
  function Get(body: JValue, key: string, default: JValue): (v: Option<JValue>)
    ensures v.None? <==> !body.JObj?
    ensures body.JObj? && key in body.fields ==> v == Some(body.fields[key])
    ensures body.JObj? && key !in body.fields ==> v == Some(default)
  {
    if !body.JObj? then None
    else if key in body.fields then Some(body.fields[key])
    else Some(default)
  }

  /** Python truthiness of a JSON value: only null, false, zero and the empty string, list and object are falsy. */
  predicate Truthy(v: JValue)
    ensures !Truthy(v) <==> v in {JNull, JBool(false), JNum(0.0), JStr(""), JList([]), JObj(map[])}
  {
    match v
    case JNull => false
    case JBool(b) => b
    case JNum(n) => n != 0.0
    case JStr(s) => s != ""
    case JList(items) => items != []
    case JObj(fields) => fields != map[]
  }

  /** `float(v)`: numbers and booleans convert; null, lists and objects raise. */
  function ToFloat(v: Option<JValue>): (r: Option<real>)
    ensures r.Some? <==> v.Some? && (v.value.JNum? || v.value.JBool?)
    ensures v.Some? && v.value.JNum? ==> r == Some(v.value.n)
  {
    if v.None? then None
    else match v.value
      case JNum(n) => Some(n)
      case JBool(b) => Some(if b then 1.0 else 0.0)
      case _ => None
  }

  /** Conversion of a number to `int`: the fraction is dropped, toward zero. */
  function Truncate(x: real): (k: int)
    ensures x >= 0.0 ==> 0 <= k && k as real <= x < k as real + 1.0
    ensures x < 0.0 ==> k <= 0 && k as real - 1.0 < x <= k as real
  {
    if x >= 0.0 then x.Floor else -((-x).Floor)
  }

  /** `int(v)`: numbers truncate toward zero, booleans give 0 or 1; the rest raise. */
  function ToInt(v: Option<JValue>): (r: Option<int>)
    ensures r.Some? <==> v.Some? && (v.value.JNum? || v.value.JBool?)
    ensures v.Some? && v.value.JNum? ==> r == Some(Truncate(v.value.n))
  {
    if v.None? then None
    else match v.value
      case JNum(n) => Some(Truncate(n))
      case JBool(b) => Some(if b then 1 else 0)
      case _ => None
  }

  /** What `round(x, 2)` is assumed to do: move a value by at most half a cent. */
  ghost predicate RoundsToCents(round2: real -> real) {
    forall x :: -0.005 <= round2(x) - x <= 0.005
  }

  // ---------------------------------------------------------------- /predict

  datatype PredictReply = PredictReply(rfPrediction: int, rfProbability: real, lrPrediction: int, lrProbability: real)

  /** The feature row `[[pressure, flow, temperature]]` handed to the models. */
  datatype SensorFeatures = SensorFeatures(pressure: real, flow: real, temperature: real)

  /** The sensor features `float(data.get(...))` reads; a missing field is `None` and `float(None)` raises. */
  function Features(body: JValue): (f: Option<SensorFeatures>)
    ensures f.Some? <==>
      ToFloat(Get(body, "pressure", JNull)).Some? && ToFloat(Get(body, "flow", JNull)).Some? &&
      ToFloat(Get(body, "temperature", JNull)).Some?
  {
    var pressure := ToFloat(Get(body, "pressure", JNull));
    var flow := ToFloat(Get(body, "flow", JNull));
    var temperature := ToFloat(Get(body, "temperature", JNull));
    if pressure.Some? && flow.Some? && temperature.Some?
    then Some(SensorFeatures(pressure.value, flow.value, temperature.value))
    else None
  }

  /** `/predict`. With both models loaded, their answer for the features; without them, flags 0 and the
      two probabilities from `random.uniform(0, 1)`. */
  function Predict(body: JValue, models: Option<SensorFeatures -> PredictReply>, rfDraw: real, lrDraw: real): (r: Response<PredictReply>)
    ensures r.Success? <==> Features(body).Some?
    ensures r.Success? && models.None? ==> r.payload == PredictReply(0, rfDraw, 0, lrDraw)
    ensures r.Success? && models.Some? ==> r.payload == models.value(Features(body).value)
  {
    var features := Features(body);
    if features.None? then BadRequest
    else if models.Some? then Success(models.value(features.value))
    else Success(PredictReply(0, rfDraw, 0, lrDraw))
  }

  /** A complete reading gets an answer even without models, and that answer never flags a leak. */
  lemma PredictWithoutModels(pressure: real, flow: real, temperature: real, rfDraw: real, lrDraw: real)
    ensures var body := JObj(map["pressure" := JNum(pressure), "flow" := JNum(flow), "temperature" := JNum(temperature)]);
      var r := Predict(body, None, rfDraw, lrDraw);
      r.Success? && r.payload.rfPrediction == 0 && r.payload.lrPrediction == 0
  {
  }

  /** A body missing any of the three fields gets a 400, with or without models. */
  lemma PredictMissingField(body: JValue, models: Option<SensorFeatures -> PredictReply>, rfDraw: real, lrDraw: real, key: string)
    requires body.JObj? && key in {"pressure", "flow", "temperature"} && key !in body.fields
    ensures StatusCode(Predict(body, models, rfDraw, lrDraw)) == 400
  {
  }

  // ---------------------------------------------------------------- /forecast

  const DefaultDays := 7
  const DefaultAvgFlow := 100.0
  const DefaultTemperature := 25.0

  datatype ForecastEntry = ForecastEntry(day: int, predictedDemand: real)
  datatype ForecastReply = ForecastReply(message: string, forecast: seq<ForecastEntry>)

  const ForecastMessage := "Forecasted daily demand (liters)"

  /** The three parameters with their defaults; `None` when a conversion raises. */
  function ForecastParams(body: JValue): (p: Option<(int, real, real)>)
    ensures p.Some? <==>
      ToInt(Get(body, "days", JNum(DefaultDays as real))).Some? &&
      ToFloat(Get(body, "avg_flow", JNum(DefaultAvgFlow))).Some? &&
      ToFloat(Get(body, "temperature", JNum(DefaultTemperature))).Some?
  {
    var days := ToInt(Get(body, "days", JNum(DefaultDays as real)));
    var avgFlow := ToFloat(Get(body, "avg_flow", JNum(DefaultAvgFlow)));
    var temperature := ToFloat(Get(body, "temperature", JNum(DefaultTemperature)));
    if days.Some? && avgFlow.Some? && temperature.Some?
    then Some((days.value, avgFlow.value, temperature.value))
    else None
  }

  /** An empty object takes every default: 7 days, 100 L average flow, 25 degrees. */
  lemma ForecastDefaults()
    ensures ForecastParams(JObj(map[])) == Some((7, 100.0, 25.0))
  {
  }

  /** One day's demand before rounding, with `fluctuation = random.uniform(-5, 5)` from draw `u`. */
  function RawDemand(avgFlow: real, temperature: real, u: real): (d: real)
    requires IsDraw(u)
    ensures avgFlow + temperature * 0.2 - 5.0 <= d < avgFlow + temperature * 0.2 + 5.0
  {
    avgFlow + temperature * 0.2 + (-5.0 + 10.0 * u)
  }

  /** The forecast list: day `d` (from 1) draws `draw(d)`. */
  function ForecastEntries(days: int, avgFlow: real, temperature: real, draw: nat -> real, round2: real -> real): (entries: seq<ForecastEntry>)
    requires forall d: nat :: IsDraw(draw(d))
    ensures |entries| == if days > 0 then days else 0
    ensures forall i :: 0 <= i < |entries| ==>
      entries[i] == ForecastEntry(i + 1, round2(RawDemand(avgFlow, temperature, draw(i + 1))))
  {
    var n := if days > 0 then days else 0;
    seq(n, i requires 0 <= i < n => ForecastEntry(i + 1, round2(RawDemand(avgFlow, temperature, draw(i + 1)))))
  }

  function ForecastOf(body: JValue, draw: nat -> real, round2: real -> real): (r: Response<ForecastReply>)
    requires forall d: nat :: IsDraw(draw(d))
    ensures r.Success? <==> ForecastParams(body).Some?
    ensures r.Success? ==>
      r.payload.message == ForecastMessage &&
      |r.payload.forecast| == (if ForecastParams(body).value.0 > 0 then ForecastParams(body).value.0 else 0)
  {
    var p := ForecastParams(body);
    if p.None? then BadRequest
    else Success(ForecastReply(ForecastMessage, ForecastEntries(p.value.0, p.value.1, p.value.2, draw, round2)))
  }

  /** `/forecast`: the loop appending one entry per day. */
  method ForecastDemand(body: JValue, draw: nat -> real, round2: real -> real) returns (r: Response<ForecastReply>)
    requires forall d: nat :: IsDraw(draw(d))
    ensures r == ForecastOf(body, draw, round2)
    ensures r.Success? <==> ForecastParams(body).Some?
    ensures r.Success? ==>
      var (days, avgFlow, temperature) := ForecastParams(body).value;
      |r.payload.forecast| == (if days > 0 then days else 0) &&
      forall i :: 0 <= i < |r.payload.forecast| ==>
        r.payload.forecast[i].day == i + 1 &&
        r.payload.forecast[i].predictedDemand == round2(RawDemand(avgFlow, temperature, draw(i + 1)))
  {
    var p := ForecastParams(body);
    if p.None? {
      return BadRequest;
    }
    var (days, avgFlow, temperature) := p.value;
    var forecast: seq<ForecastEntry> := [];
    var d := 1;
    while d <= days
      invariant 1 <= d <= (if days > 0 then days else 0) + 1
      invariant |forecast| == d - 1
      invariant forall i :: 0 <= i < |forecast| ==>
        forecast[i] == ForecastEntry(i + 1, round2(RawDemand(avgFlow, temperature, draw(i + 1))))
    {
      var demand := round2(RawDemand(avgFlow, temperature, draw(d)));
      forecast := forecast + [ForecastEntry(d, demand)];
      d := d + 1;
    }
    assert |forecast| == if days > 0 then days else 0;
    assert forecast == ForecastEntries(days, avgFlow, temperature, draw, round2);
    r := Success(ForecastReply(ForecastMessage, forecast));
  }

  /** Days run 1, 2, ... in increasing order, and each rounded demand lies within five litres
      (and the rounding margin) of `avg_flow + 0.2 * temperature`. */
  lemma ForecastDaysAndBand(body: JValue, draw: nat -> real, round2: real -> real)
    requires forall d: nat :: IsDraw(draw(d))
    requires RoundsToCents(round2)
    requires ForecastParams(body).Some?
    ensures var (days, avgFlow, temperature) := ForecastParams(body).value;
      var entries := ForecastOf(body, draw, round2).payload.forecast;
      (forall i, j :: 0 <= i < j < |entries| ==> entries[i].day < entries[j].day) &&
      forall i :: 0 <= i < |entries| ==>
        1 <= entries[i].day <= days &&
        avgFlow + temperature * 0.2 - 5.005 <= entries[i].predictedDemand <= avgFlow + temperature * 0.2 + 5.005
  {
    var (days, avgFlow, temperature) := ForecastParams(body).value;
    var entries := ForecastOf(body, draw, round2).payload.forecast;
    forall i | 0 <= i < |entries|
      ensures avgFlow + temperature * 0.2 - 5.005 <= entries[i].predictedDemand <= avgFlow + temperature * 0.2 + 5.005
    {
      var raw := RawDemand(avgFlow, temperature, draw(i + 1));
      assert entries[i].predictedDemand == round2(raw);
      assert -0.005 <= round2(raw) - raw <= 0.005;
    }
  }

  /** A non-positive `days` gives an empty forecast, not an error. */
  lemma ForecastNoDays(days: real, draw: nat -> real, round2: real -> real)
    requires forall d: nat :: IsDraw(draw(d))
    requires days < 1.0
    ensures var r := ForecastOf(JObj(map["days" := JNum(days)]), draw, round2);
      r.Success? && r.payload.forecast == []
  {
  }

  // ---------------------------------------------------------------- /schedule

  const DefaultTotalWater := 10000.0
  const DefaultHouses := 10

  datatype ScheduleReply = ScheduleReply(totalWaterAvailable: real, houses: int, allocation: seq<real>)

  /** `sum(items)` over a list: only numbers and booleans can be added; anything else raises. */
  function Numbers(items: seq<JValue>): (ns: Option<seq<real>>)
    ensures ns.Some? <==> forall i :: 0 <= i < |items| ==> items[i].JNum? || items[i].JBool?
    ensures ns.Some? ==> |ns.value| == |items|
    ensures ns.Some? ==>
      forall i :: 0 <= i < |items| ==> ns.value[i] == (if items[i].JNum? then items[i].n else if items[i].b then 1.0 else 0.0)
  {
    if items == [] then Some([])
    else
      var front := Numbers(items[..|items| - 1]);
      var last := items[|items| - 1];
      if front.None? || !(last.JNum? || last.JBool?) then None
      else Some(front.value + [if last.JNum? then last.n else if last.b then 1.0 else 0.0])
  }

  /** Each house's share of the water, in proportion to its forecast demand: a share is to the water
      what its demand is to the total demand. */
  function ProportionalShares(demands: seq<real>, totalDemand: real, totalWater: real): (shares: seq<real>)
    requires totalDemand != 0.0
    ensures |shares| == |demands|
    ensures forall i :: 0 <= i < |shares| ==> shares[i] * totalDemand == demands[i] * totalWater
  {
    seq(|demands|, i requires 0 <= i < |demands| => demands[i] / totalDemand * totalWater)
  }

  /** `houses` equal shares; `range(houses)` is empty for `houses <= 0`, so no division happens then. */
  function EqualShares(totalWater: real, houses: int, round2: real -> real): (shares: seq<real>)
    ensures |shares| == if houses > 0 then houses else 0
    ensures forall i :: 0 <= i < |shares| ==> shares[i] == round2(totalWater / houses as real)
  {
    if houses <= 0 then []
    else seq(houses, _ => round2(totalWater / houses as real))
  }

  /** `/schedule`. */
  function Schedule(body: JValue, round2: real -> real): (r: Response<ScheduleReply>)
    // a 400 exactly when a conversion raises, the demand is not a list of numbers, or it sums to zero
    ensures r.Success? <==>
      ToFloat(Get(body, "total_water", JNum(DefaultTotalWater))).Some? &&
      ToInt(Get(body, "houses", JNum(DefaultHouses as real))).Some? &&
      Get(body, "forecasted_demand", JList([])).Some? &&
      var demand := Get(body, "forecasted_demand", JList([])).value;
      (Truthy(demand) ==> demand.JList? && Numbers(demand.items).Some? && Sum(Numbers(demand.items).value) != 0.0)
    ensures r.Success? ==> Get(body, "forecasted_demand", JList([])).Some?
    ensures r.Success? ==> ToFloat(Get(body, "total_water", JNum(DefaultTotalWater))) == Some(r.payload.totalWaterAvailable)
    ensures r.Success? ==> ToInt(Get(body, "houses", JNum(DefaultHouses as real))) == Some(r.payload.houses)
    // a truthy forecasted_demand: one share per entry, or a 400 when it is not a list of numbers or sums to zero
    ensures r.Success? && Truthy(Get(body, "forecasted_demand", JList([])).value) ==>
      var demand := Get(body, "forecasted_demand", JList([])).value;
      demand.JList? && Numbers(demand.items).Some? && Sum(Numbers(demand.items).value) != 0.0 &&
      r.payload.allocation == seq(|demand.items|, i requires 0 <= i < |demand.items| =>
        round2(ProportionalShares(Numbers(demand.items).value, Sum(Numbers(demand.items).value), r.payload.totalWaterAvailable)[i]))
    // a falsy forecasted_demand (missing, [], 0, "", null, false, {}): equal shares
    ensures r.Success? && !Truthy(Get(body, "forecasted_demand", JList([])).value) ==>
      r.payload.allocation == EqualShares(r.payload.totalWaterAvailable, r.payload.houses, round2)
  {
    var totalWater := ToFloat(Get(body, "total_water", JNum(DefaultTotalWater)));
    var houses := ToInt(Get(body, "houses", JNum(DefaultHouses as real)));
    var demand := Get(body, "forecasted_demand", JList([]));
    if totalWater.None? || houses.None? || demand.None? then BadRequest
    else if Truthy(demand.value) then
      if !demand.value.JList? then BadRequest
      else
        var demands := Numbers(demand.value.items);
        if demands.None? || Sum(demands.value) == 0.0 then BadRequest
        else
          var shares := ProportionalShares(demands.value, Sum(demands.value), totalWater.value);
          Success(ScheduleReply(totalWater.value, houses.value, seq(|shares|, i requires 0 <= i < |shares| => round2(shares[i]))))
    else Success(ScheduleReply(totalWater.value, houses.value, EqualShares(totalWater.value, houses.value, round2)))
  }

  /** Every element multiplied by `c`. */
  function Scaled(s: seq<real>, c: real): (r: seq<real>)
    ensures |r| == |s| && forall i :: 0 <= i < |s| ==> r[i] == s[i] * c
  {
    seq(|s|, i requires 0 <= i < |s| => s[i] * c)
  }

  /** Scaling every element scales the sum. */
  lemma {:induction false} SumScaled(s: seq<real>, c: real)
    ensures Sum(Scaled(s, c)) == Sum(s) * c
  {
    if s != [] {
      var n := |s|;
      SumScaled(s[..n - 1], c);
      var front := Scaled(s, c)[..n - 1];
      var scaledFront := Scaled(s[..n - 1], c);
      forall k | 0 <= k < n - 1
        ensures front[k] == scaledFront[k]
      {
        assert s[..n - 1][k] == s[k];
      }
      assert front == scaledFront;
    }
  }

  /** Before rounding, the proportional shares add up to exactly the water available. */
  lemma ProportionalSharesSum(demands: seq<real>, totalWater: real)
    requires Sum(demands) != 0.0
    ensures Sum(ProportionalShares(demands, Sum(demands), totalWater)) == totalWater
  {
    var s := Sum(demands);
    var c := totalWater / s;
    var shares := ProportionalShares(demands, s, totalWater);
    forall i | 0 <= i < |demands|
      ensures shares[i] == Scaled(demands, c)[i]
    {
      assert demands[i] / s * totalWater == demands[i] * (totalWater / s);
    }
    assert shares == Scaled(demands, c);
    SumScaled(demands, c);
    assert s * (totalWater / s) == totalWater;
  }

  /** `n` copies of one value add up to `n` times that value. */
  lemma {:induction false} SumConstant(n: nat, c: real)
    ensures Sum(seq(n, _ => c)) == n as real * c
  {
    if n > 0 {
      assert seq(n, _ => c)[..n - 1] == seq(n - 1, _ => c);
      SumConstant(n - 1, c);
    }
  }

  /** Before rounding, `houses` equal shares add up to exactly the water available. */
  lemma EqualSharesSum(totalWater: real, houses: int)
    requires houses > 0
    ensures Sum(EqualShares(totalWater, houses, x => x)) == totalWater
  {
    var c := totalWater / houses as real;
    assert EqualShares(totalWater, houses, x => x) == seq(houses, _ => c);
    SumConstant(houses, c);
  }

  /** Any number of houses without demands gets its equal shares and a 200: `houses` is never capped. */
  lemma ScheduleEqualShares(totalWater: real, houses: nat, round2: real -> real)
    ensures var r := Schedule(JObj(map["total_water" := JNum(totalWater), "houses" := JNum(houses as real)]), round2);
      r.Success? && |r.payload.allocation| == houses &&
      forall i :: 0 <= i < houses ==> r.payload.allocation[i] == round2(totalWater / houses as real)
  {
    assert (houses as real).Floor == houses;
  }

  /** An empty object takes every default: 10000 L shared equally among 10 houses. */
  lemma ScheduleDefaults(round2: real -> real)
    ensures Schedule(JObj(map[]), round2) == Success(ScheduleReply(10000.0, 10, seq(10, _ => round2(1000.0))))
  {
  }

  /** `houses <= 0` without demands gives an empty allocation and no error. */
  lemma ScheduleNoHouses(totalWater: real, houses: real, round2: real -> real)
    requires houses < 1.0
    ensures var r := Schedule(JObj(map["total_water" := JNum(totalWater), "houses" := JNum(houses)]), round2);
      r.Success? && r.payload.allocation == []
  {
  }

  /** A list of JSON numbers. */
  function NumberList(demands: seq<real>): (items: seq<JValue>)
    ensures |items| == |demands| && forall i :: 0 <= i < |demands| ==> items[i] == JNum(demands[i])
  {
    seq(|demands|, i requires 0 <= i < |demands| => JNum(demands[i]))
  }

  /** Demands summing to zero divide by zero: a 400. */
  lemma ScheduleZeroDemand(demands: seq<real>, round2: real -> real)
    requires demands != [] && Sum(demands) == 0.0
    ensures StatusCode(Schedule(JObj(map["forecasted_demand" := JList(NumberList(demands))]), round2)) == 400
  {
    assert Numbers(NumberList(demands)).value == demands;
  }

  /** A truthy demand value that is not a list cannot be summed: a 400. */
  lemma ScheduleDemandNotList(demand: JValue, round2: real -> real)
    requires Truthy(demand) && !demand.JList?
    ensures StatusCode(Schedule(JObj(map["forecasted_demand" := demand]), round2)) == 400
  {
  }

  /** A body that is not a JSON object gets a 400 from every handler. */
  lemma NonObjectBody(body: JValue, models: Option<SensorFeatures -> PredictReply>, rfDraw: real, lrDraw: real,
                      draw: nat -> real, round2: real -> real)
    requires !body.JObj?
    requires forall d: nat :: IsDraw(draw(d))
    ensures StatusCode(Predict(body, models, rfDraw, lrDraw)) == 400
    ensures StatusCode(ForecastOf(body, draw, round2)) == 400
    ensures StatusCode(Schedule(body, round2)) == 400
  {
  }
}
