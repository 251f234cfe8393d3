/** The tank gauge: the level clamped to 0..100 percent, shown to one decimal,
    with a refill warning below 30 percent. */
module WaterTank {
  import opened Common
  import Authority

  const LowLevel := 30.0

  /** `Math.max(0, Math.min(100, tankLevel))`. */
  function ClampLevel(tankLevel: real): (level: real)
    ensures 0.0 <= level <= 100.0
    ensures 0.0 <= tankLevel <= 100.0 ==> level == tankLevel
    ensures tankLevel < 0.0 ==> level == 0.0
    ensures tankLevel > 100.0 ==> level == 100.0
  {
    var upper := if tankLevel < 100.0 then tankLevel else 100.0;
    if upper > 0.0 then upper else 0.0
  }

  /** What the gauge shows: the fill height, the percentage label and whether the refill warning appears. */
  datatype TankGauge = TankGauge(fillPercent: real, shownLevel: real, lowWarning: bool)

  function Gauge(tankLevel: real): TankGauge {
    var level := ClampLevel(tankLevel);
    TankGauge(level, ToFixed(level, 1), level < LowLevel)
  }

  /** The gauge is always within 0..100 percent; the label too, and it uses the clamped level. */
  lemma GaugeWithinBounds(tankLevel: real)
    ensures 0.0 <= Gauge(tankLevel).fillPercent <= 100.0
    ensures 0.0 <= Gauge(tankLevel).shownLevel <= 100.0
    ensures 0.0 <= tankLevel <= 100.0 ==> Gauge(tankLevel).fillPercent == tankLevel
  {
    ToFixedWithin(ClampLevel(tankLevel), 1, 0, 1000);
  }

  /** The warning appears exactly when the reported level is below 30, clamped or not. */
  lemma WarningIffBelowThirty(tankLevel: real)
    ensures Gauge(tankLevel).lowWarning <==> tankLevel < LowLevel
  {
  }

  /** The level the authority dashboard passes in never warns in demo mode, nor when the level is missing. */
  lemma DashboardTankWarning(draws: seq<real>)
    requires |draws| == Authority.AuthorityDrawCount && AllDraws(draws)
    ensures !Gauge(Authority.TankLevel(Authority.DemoState(draws).sensorData)).lowWarning
    ensures !Gauge(Authority.TankLevel(None)).lowWarning
  {
    Authority.DemoFigures(draws);
  }
}
