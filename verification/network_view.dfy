/** The village network grid: the houses cut into five zones of ten and one
    house card per house, numbered from 1. */
module Network {
  import opened Common

  const ZoneCount := 5
  const ZoneSize := 10

  /** `Array.prototype.slice(lo, hi)` for 0 <= lo <= hi: bounds past the end are cut to the length. */
  function JsSlice<T>(s: seq<T>, lo: nat, hi: nat): (r: seq<T>)
    requires lo <= hi
    ensures |r| <= hi - lo
    ensures hi <= |s| ==> r == s[lo..hi]
    ensures lo >= |s| ==> r == []
    ensures forall k :: 0 <= k < |r| ==> lo + k < |s| && r[k] == s[lo + k]
  {
    var a := if lo < |s| then lo else |s|;
    var b := if hi < |s| then hi else |s|;
    s[a..b]
  }

  /** The zones the component builds: zone `i` holds houses `10i` up to `10i + 9`, where they exist. */
  function ZonesOf<T>(houses: seq<T>): seq<seq<T>> {
    seq(ZoneCount, i requires 0 <= i < ZoneCount => JsSlice(houses, i * ZoneSize, (i + 1) * ZoneSize))
  }

  /** The `for` loop pushing five slices. */
  method BuildZones<T>(houses: seq<T>) returns (zones: seq<seq<T>>)
    ensures zones == ZonesOf(houses)
    ensures |zones| == ZoneCount
    ensures forall i :: 0 <= i < |zones| ==> |zones[i]| <= ZoneSize
  {
    zones := [];
    for i := 0 to ZoneCount
      invariant |zones| == i
      invariant forall k :: 0 <= k < i ==> zones[k] == JsSlice(houses, k * ZoneSize, (k + 1) * ZoneSize)
    {
      zones := zones + [JsSlice(houses, i * ZoneSize, (i + 1) * ZoneSize)];
    }
  }

  function Concat<T>(zones: seq<seq<T>>): seq<T> {
    if zones == [] then [] else Concat(zones[..|zones| - 1]) + zones[|zones| - 1]
  }

  /** The zones, read in order, are the first 50 houses: none is repeated or lost below 50, and any beyond are not shown. */
  lemma ZonesCoverFirstFifty<T>(houses: seq<T>)
    ensures Concat(ZonesOf(houses)) == houses[..if |houses| < 50 then |houses| else 50]
  {
    var zones := ZonesOf(houses);
    ZonesPrefix(houses, ZoneCount);
    assert zones[..ZoneCount] == zones;
  }

  lemma {:induction false} ZonesPrefix<T>(houses: seq<T>, n: nat)
    requires n <= ZoneCount
    ensures Concat(ZonesOf(houses)[..n]) == houses[..if |houses| < n * ZoneSize then |houses| else n * ZoneSize]
  {
    var zones := ZonesOf(houses);
    if n > 0 {
      ZonesPrefix(houses, n - 1);
      assert zones[..n][..n - 1] == zones[..n - 1];
      var lo := (n - 1) * ZoneSize;
      var a := if |houses| < lo then |houses| else lo;
      var b := if |houses| < n * ZoneSize then |houses| else n * ZoneSize;
      assert zones[n - 1] == houses[a..b];
      assert houses[..a] + houses[a..b] == houses[..b];
    }
  }

  /** One `House` element as the grid creates it. */
  datatype HouseCard = HouseCard(houseId: nat, pressure: real, flowRate: real, temperature: real, prediction: Option<Prediction>, compact: bool)

  /** `predictions ? predictions[houseId] : null`; an index past the end reads `undefined`, shown like no prediction. */
  function PredictionFor(predictions: Option<seq<Prediction>>, index: nat): (p: Option<Prediction>)
    ensures p.Some? <==> predictions.Some? && index < |predictions.value|
    ensures p.Some? ==> p.value == predictions.value[index]
  {
    if predictions.Some? && index < |predictions.value| then Some(predictions.value[index]) else None
  }

  /** The cards of one zone: the card at `idx` shows `houseId = zoneIndex * 10 + idx + 1`. */
  function ZoneCards(zone: seq<HouseReading>, zoneIndex: nat, predictions: Option<seq<Prediction>>, compact: bool): seq<HouseCard> {
    seq(|zone|, idx requires 0 <= idx < |zone| =>
      HouseCard(zoneIndex * ZoneSize + idx + 1, zone[idx].pressure, zone[idx].flowRate, zone[idx].temperature,
                PredictionFor(predictions, zoneIndex * ZoneSize + idx), compact))
  }

  /** The component: nothing without sensor data or houses, else the cards zone by zone. */
  method RenderNetwork(sensorData: Option<SensorData>, predictions: Option<seq<Prediction>>, compact: bool)
    returns (grid: Option<seq<seq<HouseCard>>>)
    ensures grid.None? <==> sensorData.None? || sensorData.value.houses.None?
    ensures grid.Some? ==> grid.value == GridOf(sensorData.value.houses.value, predictions, compact)
  {
    if sensorData.None? || sensorData.value.houses.None? {
      return None;
    }
    var zones := BuildZones(sensorData.value.houses.value);
    grid := Some(seq(|zones|, z requires 0 <= z < |zones| => ZoneCards(zones[z], z, predictions, compact)));
  }

  /** The cards for a house list. */
  function GridOf(houses: seq<HouseReading>, predictions: Option<seq<Prediction>>, compact: bool): seq<seq<HouseCard>> {
    var zones := ZonesOf(houses);
    seq(ZoneCount, z requires 0 <= z < ZoneCount => ZoneCards(zones[z], z, predictions, compact))
  }

  /** Every card shows the house and the prediction at index `houseId - 1`, and house numbers run 1 to 50 without repeats. */
  lemma GridCardsMatchHouses(houses: seq<HouseReading>, predictions: Option<seq<Prediction>>, compact: bool)
    ensures |GridOf(houses, predictions, compact)| == ZoneCount
    ensures forall z, idx :: 0 <= z < ZoneCount && 0 <= idx < |GridOf(houses, predictions, compact)[z]| ==>
      var card := GridOf(houses, predictions, compact)[z][idx];
      1 <= card.houseId <= ZoneCount * ZoneSize && card.houseId - 1 < |houses| &&
      card.pressure == houses[card.houseId - 1].pressure &&
      card.flowRate == houses[card.houseId - 1].flowRate &&
      card.temperature == houses[card.houseId - 1].temperature &&
      card.prediction == PredictionFor(predictions, card.houseId - 1)
    ensures forall z1, i1, z2, i2 ::
      0 <= z1 < ZoneCount && 0 <= i1 < |GridOf(houses, predictions, compact)[z1]| &&
      0 <= z2 < ZoneCount && 0 <= i2 < |GridOf(houses, predictions, compact)[z2]| &&
      (z1 != z2 || i1 != i2) ==>
      GridOf(houses, predictions, compact)[z1][i1].houseId != GridOf(houses, predictions, compact)[z2][i2].houseId
  {
  }

  /** Each of the first 50 houses gets a card, in zone `k / 10` at position `k % 10`. */
  lemma GridShowsFirstFifty(houses: seq<HouseReading>, predictions: Option<seq<Prediction>>, compact: bool, k: nat)
    requires k < |houses| && k < ZoneCount * ZoneSize
    ensures k % ZoneSize < |GridOf(houses, predictions, compact)[k / ZoneSize]|
    ensures GridOf(houses, predictions, compact)[k / ZoneSize][k % ZoneSize].houseId == k + 1
  {
  }
}
