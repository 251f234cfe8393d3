/** Shared vocabulary of the dashboard: the payload shapes the views read,
    JavaScript numbers where a summary can leave the reals, sums and counts. */
module Common {

  datatype Option<T> = None | Some(value: T)

  /** One house of `sensorData.houses`; its position in the list is the house's identity. */
  datatype HouseReading = HouseReading(pressure: real, flowRate: real, temperature: real)

  /** One entry of the prediction list, index-aligned with the houses. */
  datatype Prediction = Prediction(rfPrediction: int, rfProbability: real, lrPrediction: int, lrProbability: real)

  /** The `sensorData` object; a live reply may lack either field. */
  datatype SensorData = SensorData(houses: Option<seq<HouseReading>>, tankLevel: Option<real>)

  /** The `schedule` object of the villager view. */
  datatype ScheduleData = ScheduleData(allocations: Option<seq<real>>)

  /** The `forecast` object of the authority view. */
  datatype ForecastData = ForecastData(forecast: Option<seq<real>>)

  /** A JavaScript number as the summaries can produce it: `0 / 0` is NaN,
      `Math.max()` of nothing is -Infinity and `Math.min()` of nothing is +Infinity. */
  datatype JsNumber = Finite(value: real) | NaN | PositiveInfinity | NegativeInfinity

  /** Either model flags a leak (`rf_prediction === 1 || lr_prediction === 1`). */
  predicate Flagged(p: Prediction) {
    p.rfPrediction == 1 || p.lrPrediction == 1
  }

  /** `reduce((sum, v) => sum + v, 0)`: a left fold from 0. */
  function Sum(s: seq<real>): real {
    if |s| == 0 then 0.0 else Sum(s[..|s| - 1]) + s[|s| - 1]
  }

  lemma {:induction false} SumBounds(s: seq<real>, lo: real, hi: real)
    requires forall i :: 0 <= i < |s| ==> lo <= s[i] <= hi
    ensures |s| as real * lo <= Sum(s) <= |s| as real * hi
  {
    if |s| > 0 {
      SumBounds(s[..|s| - 1], lo, hi);
    }
  }

  lemma {:induction false} SumAppend(s: seq<real>, t: seq<real>)
    ensures Sum(s + t) == Sum(s) + Sum(t)
  {
    if |t| > 0 {
      assert (s + t)[..|s + t| - 1] == s + t[..|t| - 1];
      SumAppend(s, t[..|t| - 1]);
    } else {
      assert s + t == s;
    }
  }

  /** `s.reduce((a, b) => a + b, 0) / s.length`: NaN for an empty list. */
  function Mean(s: seq<real>): (m: JsNumber)
    ensures m.NaN? <==> |s| == 0
    ensures m.Finite? <==> |s| > 0
    ensures m.Finite? ==> m.value * |s| as real == Sum(s)
  {
    if |s| == 0 then NaN else Finite(Sum(s) / |s| as real)
  }

  /** The mean of a non-empty list lies between any bounds of its elements. */
  lemma MeanWithin(s: seq<real>, lo: real, hi: real)
    requires |s| > 0
    requires forall i :: 0 <= i < |s| ==> lo <= s[i] <= hi
    ensures Mean(s).Finite? && lo <= Mean(s).value <= hi
  {
    var n := |s| as real;
    SumBounds(s, lo, hi);
    DivideMonotone(n * lo, Sum(s), n);
    DivideMonotone(Sum(s), n * hi, n);
    assert n * lo / n == lo;
    assert n * hi / n == hi;
  }

  /** Number of predictions that either model flags. */
  function CountFlagged(s: seq<Prediction>): (n: nat)
    ensures n <= |s|
    ensures n == 0 <==> forall i :: 0 <= i < |s| ==> !Flagged(s[i])
    ensures n == |s| <==> forall i :: 0 <= i < |s| ==> Flagged(s[i])
  {
    if |s| == 0 then 0
    else CountFlagged(s[..|s| - 1]) + (if Flagged(s[|s| - 1]) then 1 else 0)
  }

  /** The outcome of one awaited HTTP call: the reply's `data`, or a thrown error
      (timeout, refused connection, error status). */
  datatype Reply<T> = Delivered(data: T) | Failed

  /** A value `Math.random()` (or Python's `random.random()`) can return. */
  predicate IsDraw(u: real) {
    0.0 <= u < 1.0
  }

  predicate AllDraws(s: seq<real>) {
    forall i :: 0 <= i < |s| ==> IsDraw(s[i])
  }

  function Pow10(digits: nat): (p: real)
    ensures p >= 1.0
  {
    if digits == 0 then 1.0 else 10.0 * Pow10(digits - 1)
  }

  /** The integer nearest to x * 10^digits; on a tie the one farther from zero, since `toFixed`
      writes a negative number as "-" followed by the rounding of its magnitude, which takes the larger. */
  function NearestStep(x: real, digits: nat): int {
    if x < 0.0 then -((-x) * Pow10(digits) + 0.5).Floor else (x * Pow10(digits) + 0.5).Floor
  }

  /** `x.toFixed(digits) * 1`: the multiple of 10^-digits nearest to x, half away from zero on a tie. */
  function ToFixed(x: real, digits: nat): (r: real)
    ensures r * Pow10(digits) == NearestStep(x, digits) as real
    ensures (r * Pow10(digits)).Floor as real == r * Pow10(digits)
    ensures x >= 0.0 ==> x * Pow10(digits) - 0.5 < r * Pow10(digits) <= x * Pow10(digits) + 0.5
    ensures x < 0.0 ==> x * Pow10(digits) - 0.5 <= r * Pow10(digits) < x * Pow10(digits) + 0.5
  {
    assert (-x) * Pow10(digits) == -(x * Pow10(digits));
    NearestStep(x, digits) as real / Pow10(digits)
  }

  /** A value and its negation round to opposite values: the rounding is symmetric about zero. */
  lemma ToFixedSymmetric(x: real, digits: nat)
    requires x > 0.0
    ensures ToFixed(-x, digits) == -ToFixed(x, digits)
  {
    assert -(-x) == x;
    assert NearestStep(-x, digits) == -NearestStep(x, digits);
  }

  /** Negative ties round away from zero: `(-0.125).toFixed(2)` is "-0.13" and `(-2.5).toFixed(0)` is "-3". */
  lemma NegativeTiesAwayFromZero()
    ensures ToFixed(-0.125, 2) == -0.13
    ensures ToFixed(-2.5, 0) == -3.0
    ensures ToFixed(0.125, 2) == 0.13
  {
    assert Pow10(2) == 100.0;
    assert NearestStep(-0.125, 2) == -13;
    assert NearestStep(0.125, 2) == 13;
    assert NearestStep(-2.5, 0) == -3;
  }

  /** Rounding to a grid cannot leave an interval whose ends lie on that grid. */
  lemma ToFixedWithin(x: real, digits: nat, lo: int, hi: int)
    requires lo as real <= x * Pow10(digits) <= hi as real
    ensures lo as real / Pow10(digits) <= ToFixed(x, digits) <= hi as real / Pow10(digits)
  {
    var n := NearestStep(x, digits);
    NearestStepBetween(x, digits, lo, hi);
    DivideMonotone(lo as real, n as real, Pow10(digits));
    DivideMonotone(n as real, hi as real, Pow10(digits));
  }

  lemma NearestStepBetween(x: real, digits: nat, lo: int, hi: int)
    requires lo as real <= x * Pow10(digits) <= hi as real
    ensures lo <= NearestStep(x, digits) <= hi
  {
    if x < 0.0 {
      assert (-x) * Pow10(digits) == -(x * Pow10(digits));
      RoundHalfUpBetween((-x) * Pow10(digits), -hi, -lo);
    } else {
      RoundHalfUpBetween(x * Pow10(digits), lo, hi);
    }
  }

  /** Rounding half up keeps a value between two integers that enclose it. */
  lemma RoundHalfUpBetween(p: real, lo: int, hi: int)
    requires lo as real <= p <= hi as real
    ensures lo <= (p + 0.5).Floor <= hi
  {
  }

  lemma DivideMonotone(a: real, b: real, s: real)
    requires a <= b && s > 0.0
    ensures a / s <= b / s
  {
    var d := b / s - a / s;
    assert d * s == b - a;
  }
}
