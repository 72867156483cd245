/** The sensor-reading derivation of the `/api/sensors` route: the route draws
    a vibration count, a soil-moisture count, a distance and a temperature from
    `Math.random()` and computes from them soil-moisture percent, earthquake
    magnitude, water-level percent, two boolean flags, and one three-tier status
    per sensor. All arithmetic is exact (`real`); the random draws that feed the
    route are parameters. */
module SensorRoute {
  import opened SensorStatus

  /** Full-scale count of the soil-moisture ADC used by the moisture formula. */
  const MoistureScale: real := 1023.0
  /** Vibration counts above this are "vibrating" and get a nonzero magnitude. */
  const VibrationThreshold: int := 300
  /** Full-scale count of the vibration sensor used by the magnitude formula. */
  const VibrationScale: real := 1024.0
  /** Magnitude reached at full-scale vibration. */
  const MagnitudeScale: real := 6.0
  /** Depth of the water tank in cm. */
  const MaxDepth: real := 50.0

  // ---------------------------------------------------------------------------
  // Readings

  datatype EarthquakeReading = EarthquakeReading(
    magnitude: real,
    vibrationValue: int,
    isVibrating: bool,
    status: Status)

  datatype IrrigationReading = IrrigationReading(
    soilMoisture: real,
    soilMoistureRaw: int,
    temperature: real,
    pumpStatus: bool,
    status: Status)

  datatype FloodReading = FloodReading(
    waterLevel: real,
    distance: real,
    status: Status)

  datatype SensorData = SensorData(
    earthquake: EarthquakeReading,
    irrigation: IrrigationReading,
    flood: FloodReading)

  // ---------------------------------------------------------------------------
  // Conversions

  /** Soil moisture in percent, P = 100 * (1 - v / 1023). There is no clamp. */
  function SoilMoisture(soilMoistureRaw: int): (p: real)
    ensures soilMoistureRaw == 0 ==> p == 100.0
    ensures soilMoistureRaw == 1023 ==> p == 0.0
    ensures 0 <= soilMoistureRaw <= 1022 ==> 0.0 < p <= 100.0
    ensures soilMoistureRaw < 0 ==> p > 100.0
    ensures soilMoistureRaw > 1023 ==> p < 0.0
  {
    100.0 * (1.0 - soilMoistureRaw as real / MoistureScale)
  }

  /** Simplified linear earthquake magnitude: zero up to the vibration
      threshold, then proportional to the vibration count. */
  function Magnitude(vibrationValue: int): (m: real)
    ensures m >= 0.0
    ensures m == 0.0 <==> vibrationValue <= VibrationThreshold
    ensures vibrationValue > VibrationThreshold ==> m > 1.0
    ensures vibrationValue <= 1023 ==> m < MagnitudeScale
  {
    if vibrationValue > VibrationThreshold then
      vibrationValue as real / VibrationScale * MagnitudeScale
    else
      0.0
  }

  /** Water level in percent of the tank depth, floored at 0 and not capped. */
  function WaterLevel(distance: real): (w: real)
    ensures w >= 0.0
    ensures w == 0.0 <==> distance >= MaxDepth
    ensures 15.0 <= distance < MaxDepth ==> 0.0 < w <= 70.0
    ensures distance < 0.0 ==> w > 100.0
  {
    var level := (MaxDepth - distance) / MaxDepth * 100.0;
    if 0.0 < level then level else 0.0
  }

  // ---------------------------------------------------------------------------
  // Flags and classifiers

  /** The vibration flag: set exactly when the count exceeds the threshold. */
  function IsVibrating(vibrationValue: int): (vibrating: bool)
    ensures vibrating <==> Magnitude(vibrationValue) > 0.0
    ensures vibrating ==> Magnitude(vibrationValue) > 1.0
  {
    vibrationValue > VibrationThreshold
  }

  /** The irrigation pump runs when moisture is below 30 percent. */
  function PumpStatus(soilMoisture: real): (pumpOn: bool)
    ensures pumpOn <==> IrrigationStatus(soilMoisture) != Safe
  {
    soilMoisture < 30.0
  }

  /** Earthquake tiers: critical above magnitude 3, warning above 1, else safe. */
  function EarthquakeStatus(magnitude: real): (s: Status)
    ensures s == Critical <==> magnitude > 3.0
    ensures s == Warning <==> 1.0 < magnitude <= 3.0
    ensures s == Safe <==> magnitude <= 1.0
  {
    if magnitude > 3.0 then Critical
    else if magnitude > 1.0 then Warning
    else Safe
  }

  /** Irrigation tiers: critical below 15 percent, warning below 30, else safe. */
  function IrrigationStatus(soilMoisture: real): (s: Status)
    ensures s == Critical <==> soilMoisture < 15.0
    ensures s == Warning <==> 15.0 <= soilMoisture < 30.0
    ensures s == Safe <==> soilMoisture >= 30.0
  {
    if soilMoisture < 15.0 then Critical
    else if soilMoisture < 30.0 then Warning
    else Safe
  }

  /** Flood tiers, on the measured distance: critical below 10 cm, warning
      below 20 cm, else safe. */
  function FloodStatus(distance: real): (s: Status)
    ensures s == Critical <==> distance < 10.0
    ensures s == Warning <==> 10.0 <= distance < 20.0
    ensures s == Safe <==> distance >= 20.0
  {
    if distance < 10.0 then Critical
    else if distance < 20.0 then Warning
    else Safe
  }

  // ---------------------------------------------------------------------------
  // The random draws

  /** The values the route draws from `Math.random()`, each in [0, 1). */
  datatype Draws = Draws(vibration: real, soilMoisture: real, distance: real, temperature: real)

  predicate UnitDraw(u: real) {
    0.0 <= u < 1.0
  }

  predicate ValidDraws(d: Draws) {
    UnitDraw(d.vibration) && UnitDraw(d.soilMoisture) && UnitDraw(d.distance) && UnitDraw(d.temperature)
  }

  /** `Math.floor(Math.random() * 1024)` */
  function VibrationValueOf(u: real): (v: int)
    requires UnitDraw(u)
    ensures 0 <= v <= 1023
  {
    (u * 1024.0).Floor
  }

  /** `Math.floor(Math.random() * 1023)`: note that 1023 itself is never drawn. */
  function SoilMoistureRawOf(u: real): (raw: int)
    requires UnitDraw(u)
    ensures 0 <= raw <= 1022
  {
    (u * 1023.0).Floor
  }

  /** `15 + Math.random() * 35`, in cm. */
  function DistanceOf(u: real): (d: real)
    requires UnitDraw(u)
    ensures 15.0 <= d < 50.0
  {
    15.0 + u * 35.0
  }

  /** `20 + Math.random() * 15`, in degrees Celsius. */
  function TemperatureOf(u: real): (t: real)
    requires UnitDraw(u)
    ensures 20.0 <= t < 35.0
  {
    20.0 + u * 15.0
  }

  // ---------------------------------------------------------------------------
  // generateSensorData

  /** The ranges the route's draws produce. */
  predicate InDrawnRange(vibrationValue: int, soilMoistureRaw: int, distance: real, temperature: real) {
    && 0 <= vibrationValue <= 1023
    && 0 <= soilMoistureRaw <= 1022
    && 15.0 <= distance < 50.0
    && 20.0 <= temperature < 35.0
  }

  /** The reading built from drawn raw values. */
  function DeriveSensorData(vibrationValue: int, soilMoistureRaw: int, distance: real, temperature: real): (d: SensorData)
    requires InDrawnRange(vibrationValue, soilMoistureRaw, distance, temperature)
    ensures d.earthquake.vibrationValue == vibrationValue
    ensures d.irrigation.soilMoistureRaw == soilMoistureRaw
    ensures d.irrigation.temperature == temperature
    ensures d.flood.distance == distance
    ensures d.earthquake.magnitude == Magnitude(vibrationValue)
    ensures d.irrigation.soilMoisture == SoilMoisture(soilMoistureRaw)
    ensures d.flood.waterLevel == WaterLevel(distance)
    ensures d.earthquake.status == EarthquakeStatus(d.earthquake.magnitude)
    ensures d.irrigation.status == IrrigationStatus(d.irrigation.soilMoisture)
    ensures d.flood.status == FloodStatus(distance)
    ensures 0.0 <= d.earthquake.magnitude < 6.0
    ensures d.earthquake.isVibrating <==> vibrationValue > 300
    ensures d.earthquake.isVibrating <==> d.earthquake.status != Safe
    ensures d.earthquake.status == Critical <==> vibrationValue > 512
    ensures 0.0 < d.irrigation.soilMoisture <= 100.0
    ensures d.irrigation.pumpStatus <==> soilMoistureRaw >= 717
    ensures d.irrigation.pumpStatus <==> d.irrigation.status != Safe
    ensures 0.0 < d.flood.waterLevel <= 70.0
    ensures d.flood.status != Critical
    ensures d.irrigation.status == Critical <==> soilMoistureRaw >= 870
    ensures d.flood.status == Warning <==> distance < 20.0
  {
    IrrigationTiersByRaw(soilMoistureRaw);
    IsVibratingIffEarthquakeNotSafe(vibrationValue);
    EarthquakeCriticalIffStrongVibration(vibrationValue);
    PumpIffRawAtLeast717(soilMoistureRaw);
    var magnitude := Magnitude(vibrationValue);
    var soilMoisture := SoilMoisture(soilMoistureRaw);
    SensorData(
      EarthquakeReading(magnitude, vibrationValue, IsVibrating(vibrationValue), EarthquakeStatus(magnitude)),
      IrrigationReading(soilMoisture, soilMoistureRaw, temperature, PumpStatus(soilMoisture), IrrigationStatus(soilMoisture)),
      FloodReading(WaterLevel(distance), distance, FloodStatus(distance)))
  }

  /** generateSensorData, with its `Math.random()` draws as a parameter. */
  function GenerateSensorData(draws: Draws): (d: SensorData)
    requires ValidDraws(draws)
    ensures d.earthquake.vibrationValue == VibrationValueOf(draws.vibration)
    ensures d.irrigation.soilMoistureRaw == SoilMoistureRawOf(draws.soilMoisture)
    ensures d.flood.distance == DistanceOf(draws.distance)
    ensures d.irrigation.temperature == TemperatureOf(draws.temperature)
    ensures InDrawnRange(d.earthquake.vibrationValue, d.irrigation.soilMoistureRaw, d.flood.distance, d.irrigation.temperature)
    ensures d == DeriveSensorData(d.earthquake.vibrationValue, d.irrigation.soilMoistureRaw, d.flood.distance, d.irrigation.temperature)
  {
    DeriveSensorData(
      VibrationValueOf(draws.vibration),
      SoilMoistureRawOf(draws.soilMoisture),
      DistanceOf(draws.distance),
      TemperatureOf(draws.temperature))
  }

  // ---------------------------------------------------------------------------
  // Properties

  /** More soil-moisture counts always mean strictly less moisture. */
  lemma SoilMoistureStrictlyDecreasing(a: int, b: int)
    requires a < b
    ensures SoilMoisture(a) > SoilMoisture(b)
  {
  }

  /** The vibration flag and a non-safe earthquake status coincide. */
  lemma IsVibratingIffEarthquakeNotSafe(vibrationValue: int)
    ensures IsVibrating(vibrationValue) <==> EarthquakeStatus(Magnitude(vibrationValue)) != Safe
  {
  }

  /** The earthquake tiers, restated on the raw vibration count. */
  lemma EarthquakeCriticalIffStrongVibration(vibrationValue: int)
    ensures EarthquakeStatus(Magnitude(vibrationValue)) == Critical <==> vibrationValue > 512
    ensures EarthquakeStatus(Magnitude(vibrationValue)) == Warning <==> 300 < vibrationValue <= 512
  {
  }

  /** For an integer count, the pump runs exactly from 717 counts upward. */
  lemma PumpIffRawAtLeast717(soilMoistureRaw: int)
    ensures PumpStatus(SoilMoisture(soilMoistureRaw)) <==> soilMoistureRaw >= 717
  {
  }

  /** The irrigation tiers, restated on the raw count. */
  lemma IrrigationTiersByRaw(soilMoistureRaw: int)
    ensures IrrigationStatus(SoilMoisture(soilMoistureRaw)) == Critical <==> soilMoistureRaw >= 870
    ensures IrrigationStatus(SoilMoisture(soilMoistureRaw)) == Warning <==> 717 <= soilMoistureRaw < 870
  {
  }

  /** With distance drawn from [15, 50) the flood status is never critical. */
  lemma FloodNeverCriticalInDrawnRange(distance: real)
    requires 15.0 <= distance < 50.0
    ensures FloodStatus(distance) != Critical
    ensures FloodStatus(distance) == Warning <==> distance < 20.0
  {
  }

  /** Raising the magnitude never lowers the earthquake severity. */
  lemma EarthquakeStatusMonotone(m1: real, m2: real)
    requires m1 <= m2
    ensures AtMost(EarthquakeStatus(m1), EarthquakeStatus(m2))
  {
  }

  /** Lowering the moisture never lowers the irrigation severity. */
  lemma IrrigationStatusAntitone(p1: real, p2: real)
    requires p1 <= p2
    ensures AtMost(IrrigationStatus(p2), IrrigationStatus(p1))
  {
  }

  /** Lowering the distance never lowers the flood severity. */
  lemma FloodStatusAntitone(d1: real, d2: real)
    requires d1 <= d2
    ensures AtMost(FloodStatus(d2), FloodStatus(d1))
  {
  }

  /** On raw counts: more vibration never lowers the earthquake severity and
      more soil-moisture counts (drier soil) never lower the irrigation severity. */
  lemma RawSeverityMonotone(v1: int, v2: int, raw1: int, raw2: int)
    requires v1 <= v2 && raw1 <= raw2
    ensures AtMost(EarthquakeStatus(Magnitude(v1)), EarthquakeStatus(Magnitude(v2)))
    ensures AtMost(IrrigationStatus(SoilMoisture(raw1)), IrrigationStatus(SoilMoisture(raw2)))
  {
  }

  /** Each sensor's sub-reading depends only on that sensor's own inputs. */
  lemma SubReadingsIndependent(v: int, raw: int, dist: real, temp: real,
                               v': int, raw': int, dist': real, temp': real)
    requires InDrawnRange(v, raw, dist, temp) && InDrawnRange(v', raw', dist', temp')
    ensures v == v' ==> DeriveSensorData(v, raw, dist, temp).earthquake == DeriveSensorData(v', raw', dist', temp').earthquake
    ensures raw == raw' && temp == temp' ==> DeriveSensorData(v, raw, dist, temp).irrigation == DeriveSensorData(v', raw', dist', temp').irrigation
    ensures dist == dist' ==> DeriveSensorData(v, raw, dist, temp).flood == DeriveSensorData(v', raw', dist', temp').flood
  {
  }

  /** The route's draws reach every earthquake and irrigation tier, and every
      flood tier except critical: the range facts above are the only limits. */
  lemma {:induction false} GeneratedTiersReachable(s: Status)
    ensures exists draws :: ValidDraws(draws) && GenerateSensorData(draws).earthquake.status == s
    ensures exists draws :: ValidDraws(draws) && GenerateSensorData(draws).irrigation.status == s
    ensures (exists draws :: ValidDraws(draws) && GenerateSensorData(draws).flood.status == s) <==> s != Critical
  {
    var draws := match s
      case Safe => Draws(0.0, 0.0, 0.9, 0.0)
      case Warning => Draws(0.375, 0.75, 0.0, 0.0)
      case Critical => Draws(0.75, 0.9, 0.0, 0.0);
    assert ValidDraws(draws);
    var d := GenerateSensorData(draws);
    assert d.earthquake.status == s;
    assert d.irrigation.status == s;
    if s != Critical {
      assert d.flood.status == s;
    }
  }

  /** The upper ends of the moisture (100 percent) and water-level (70 percent)
      ranges are attained: a draw of 0 gives them. */
  lemma {:induction false} GeneratedUpperBoundsAttained()
    ensures exists draws :: ValidDraws(draws) && GenerateSensorData(draws).irrigation.soilMoisture == 100.0
    ensures exists draws :: ValidDraws(draws) && GenerateSensorData(draws).flood.waterLevel == 70.0
  {
    var draws := Draws(0.0, 0.0, 0.0, 0.0);
    assert ValidDraws(draws);
    var d := GenerateSensorData(draws);
    assert d.irrigation.soilMoisture == 100.0 && d.flood.waterLevel == 70.0;
  }
}
