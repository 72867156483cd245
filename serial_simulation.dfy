/** The Arduino serial simulator's derivation: the moisture formula, the pump
    rule and the vibration alert, stated independently of the route. The
    simulator's random draws (`random.randint`) are parameters. */
module SerialSimulation {
  import opened SensorStatus
  import SensorRoute

  /** calculate_moisture_percentage: P = 100 * (1 - v / 1023), unclamped. */
  function CalculateMoisturePercentage(rawValue: int): (p: real)
    ensures rawValue == 0 ==> p == 100.0
    ensures rawValue == 1023 ==> p == 0.0
    ensures 0 <= rawValue <= 1023 ==> 0.0 <= p <= 100.0
    ensures rawValue > 1023 ==> p < 0.0
  {
    100.0 * (1.0 - rawValue as real / 1023.0)
  }

  /** The pump runs when the moisture is below 30 percent. */
  function PumpStatus(soilMoisture: real): (pumpOn: bool)
    ensures pumpOn == SensorRoute.PumpStatus(soilMoisture)
  {
    soilMoisture < 30.0
  }

  /** The vibration alert fires above 300 counts. */
  function VibrationAlert(vibrationValue: int): (alert: bool)
    ensures alert == SensorRoute.IsVibrating(vibrationValue)
  {
    vibrationValue > 300
  }

  /** One line of simulated serial output, without distance and temperature. */
  datatype SerialReading = SerialReading(
    vibrationValue: int,
    soilMoistureRaw: int,
    soilMoisture: real,
    pumpStatus: bool,
    vibrationAlert: bool)

  /** The ranges `random.randint(0, 1024)` and `random.randint(200, 900)` produce. */
  predicate InSimulatedRange(vibrationValue: int, soilMoistureRaw: int) {
    0 <= vibrationValue <= 1024 && 200 <= soilMoistureRaw <= 900
  }

  /** The body of one iteration of the simulator loop, up to the flags. */
  function SimulateReading(vibrationValue: int, soilMoistureRaw: int): (r: SerialReading)
    requires InSimulatedRange(vibrationValue, soilMoistureRaw)
    ensures r.vibrationValue == vibrationValue && r.soilMoistureRaw == soilMoistureRaw
    ensures r.soilMoisture == CalculateMoisturePercentage(soilMoistureRaw)
    ensures 12.02 <= r.soilMoisture <= 80.45
    ensures r.pumpStatus <==> soilMoistureRaw >= 717
    ensures r.vibrationAlert <==> vibrationValue > 300
  {
    PumpIffRawAtLeast717(soilMoistureRaw);
    MoistureInRealisticRange(soilMoistureRaw);
    var soilMoisture := CalculateMoisturePercentage(soilMoistureRaw);
    SerialReading(vibrationValue, soilMoistureRaw, soilMoisture, PumpStatus(soilMoisture), VibrationAlert(vibrationValue))
  }

  // ---------------------------------------------------------------------------
  // Properties

  /** More counts always mean strictly less moisture. */
  lemma MoistureStrictlyDecreasing(a: int, b: int)
    requires a < b
    ensures CalculateMoisturePercentage(a) > CalculateMoisturePercentage(b)
  {
  }

  /** For the simulator's raw range 200..900 the moisture stays in [12.02, 80.45]. */
  lemma MoistureInRealisticRange(rawValue: int)
    requires 200 <= rawValue <= 900
    ensures 12.02 <= CalculateMoisturePercentage(rawValue) <= 80.45
  {
  }

  /** For an integer count, the pump runs exactly from 717 counts upward. */
  lemma PumpIffRawAtLeast717(rawValue: int)
    ensures PumpStatus(CalculateMoisturePercentage(rawValue)) <==> rawValue >= 717
  {
  }

  /** The simulator's formula and the route's formula agree on every count. */
  lemma MoistureAgreesWithRoute(rawValue: int)
    ensures CalculateMoisturePercentage(rawValue) == SensorRoute.SoilMoisture(rawValue)
  {
  }

  /** The simulator's pump rule is the route's pump rule, and it is on exactly
      when the route's irrigation status is not safe. */
  lemma PumpAgreesWithRoute(rawValue: int)
    ensures PumpStatus(CalculateMoisturePercentage(rawValue)) == SensorRoute.PumpStatus(SensorRoute.SoilMoisture(rawValue))
    ensures PumpStatus(CalculateMoisturePercentage(rawValue))
        <==> SensorRoute.IrrigationStatus(SensorRoute.SoilMoisture(rawValue)) != Safe
  {
  }

  /** The simulator's vibration alert is raised exactly when the route's
      earthquake status is not safe. */
  lemma VibrationAlertAgreesWithRoute(vibrationValue: int)
    ensures VibrationAlert(vibrationValue)
        <==> SensorRoute.EarthquakeStatus(SensorRoute.Magnitude(vibrationValue)) != Safe
  {
  }

  /** Where the simulator's draws and the route's draws overlap, the simulator
      prints the same moisture, pump and vibration flags the route returns. */
  lemma SimulatorAgreesWithRoute(vibrationValue: int, soilMoistureRaw: int, distance: real, temperature: real)
    requires InSimulatedRange(vibrationValue, soilMoistureRaw)
    requires SensorRoute.InDrawnRange(vibrationValue, soilMoistureRaw, distance, temperature)
    ensures SimulateReading(vibrationValue, soilMoistureRaw).soilMoisture
         == SensorRoute.DeriveSensorData(vibrationValue, soilMoistureRaw, distance, temperature).irrigation.soilMoisture
    ensures SimulateReading(vibrationValue, soilMoistureRaw).pumpStatus
         == SensorRoute.DeriveSensorData(vibrationValue, soilMoistureRaw, distance, temperature).irrigation.pumpStatus
    ensures SimulateReading(vibrationValue, soilMoistureRaw).vibrationAlert
         == SensorRoute.DeriveSensorData(vibrationValue, soilMoistureRaw, distance, temperature).earthquake.isVibrating
  {
  }
}
