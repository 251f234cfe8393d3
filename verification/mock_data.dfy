/** The part of `generateMockData` that the villager and the authority views share:
    50 houses from three draws each, then one prediction per house from three
    further draws each. Draws are the successive values of `Math.random()`. */
module MockData {
  import opened Common

  const MockHouseCount := 50
  /** Draws taken by the house loop and the prediction map together. */
  const SharedDrawCount := 300
  const LeakRate := 0.08

  /** One mock house: pressure in bar to 2 decimals, flow in L/s and temperature in degrees C to 1 decimal. */
  function MockHouse(u0: real, u1: real, u2: real): (h: HouseReading)
    requires IsDraw(u0) && IsDraw(u1) && IsDraw(u2)
    ensures 1.0 <= h.pressure <= 5.0
    ensures 50.0 <= h.flowRate <= 200.0
    ensures 10.0 <= h.temperature <= 30.0
  {
    ToFixedWithin(u0 * 4.0 + 1.0, 2, 100, 500);
    ToFixedWithin(u1 * 150.0 + 50.0, 1, 500, 2000);
    ToFixedWithin(u2 * 20.0 + 10.0, 1, 100, 300);
    HouseReading(ToFixed(u0 * 4.0 + 1.0, 2), ToFixed(u1 * 150.0 + 50.0, 1), ToFixed(u2 * 20.0 + 10.0, 1))
  }

  /** One mock prediction: a leak draw below 0.08 makes both models flag the house. */
  function MockPrediction(leakDraw: real, rfDraw: real, lrDraw: real): (p: Prediction)
    requires IsDraw(leakDraw) && IsDraw(rfDraw) && IsDraw(lrDraw)
    ensures p.rfPrediction == p.lrPrediction
    ensures Flagged(p) <==> leakDraw < LeakRate
    ensures leakDraw < LeakRate ==> 0.7 <= p.rfProbability < 1.0 && 0.7 <= p.lrProbability < 1.0
    ensures leakDraw >= LeakRate ==> 0.0 <= p.rfProbability < 0.3 && 0.0 <= p.lrProbability < 0.3
  {
    var hasLeak := leakDraw < LeakRate;
    var rfProb := if hasLeak then rfDraw * 0.3 + 0.7 else rfDraw * 0.3;
    var lrProb := if hasLeak then lrDraw * 0.3 + 0.7 else lrDraw * 0.3;
    Prediction(if hasLeak then 1 else 0, rfProb, if hasLeak then 1 else 0, lrProb)
  }

  /** House `i` of the mock frame: draws 3i, 3i+1, 3i+2. */
  function MockHouseAt(draws: seq<real>, i: nat): HouseReading
    requires |draws| >= SharedDrawCount && AllDraws(draws) && i < MockHouseCount
  {
    MockHouse(draws[3 * i], draws[3 * i + 1], draws[3 * i + 2])
  }

  /** Prediction `i` of the mock frame: the draws after all house draws, three per house. */
  function MockPredictionAt(draws: seq<real>, i: nat): Prediction
    requires |draws| >= SharedDrawCount && AllDraws(draws) && i < MockHouseCount
  {
    MockPrediction(draws[150 + 3 * i], draws[151 + 3 * i], draws[152 + 3 * i])
  }

  /** The houses loop of `generateMockData`, pushing one house per iteration. */
  method GenerateHouses(draws: seq<real>) returns (houses: seq<HouseReading>)
    requires |draws| >= SharedDrawCount && AllDraws(draws)
    ensures |houses| == MockHouseCount
    ensures forall i :: 0 <= i < MockHouseCount ==> houses[i] == MockHouseAt(draws, i)
    ensures forall i :: 0 <= i < |houses| ==>
      1.0 <= houses[i].pressure <= 5.0 && 50.0 <= houses[i].flowRate <= 200.0 && 10.0 <= houses[i].temperature <= 30.0
  {
    houses := [];
    for i := 0 to MockHouseCount
      invariant |houses| == i
      invariant forall k :: 0 <= k < i ==> houses[k] == MockHouseAt(draws, k)
    {
      houses := houses + [MockHouseAt(draws, i)];
    }
  }

  /** `houses.map(...)`: one prediction per house, in house order. */
  function MockPredictions<H>(draws: seq<real>, houses: seq<H>): (ps: seq<Prediction>)
    requires |draws| >= SharedDrawCount && AllDraws(draws) && |houses| <= MockHouseCount
    ensures |ps| == |houses|
    ensures forall i :: 0 <= i < |ps| ==> ps[i].rfPrediction == ps[i].lrPrediction
    ensures forall i :: 0 <= i < |ps| ==>
      if draws[150 + 3 * i] < LeakRate
      then ps[i].rfPrediction == 1 && 0.7 <= ps[i].rfProbability < 1.0 && 0.7 <= ps[i].lrProbability < 1.0
      else ps[i].rfPrediction == 0 && 0.0 <= ps[i].rfProbability < 0.3 && 0.0 <= ps[i].lrProbability < 0.3
  {
    seq(|houses|, i requires 0 <= i < |houses| => MockPredictionAt(draws, i))
  }
}
