# Environmental monitor: sensor-reading derivation

This project models, in Dafny, how the environmental monitor turns raw
Arduino-style sensor values into the readings its dashboard shows. The
`/api/sensors` route's `generateSensorData` takes no arguments: it draws a
vibration count, a soil-moisture ADC count, a distance and a temperature from
`Math.random()`, and from those four values it computes:

- the soil-moisture percentage;
- a simplified linear earthquake magnitude;
- the water-level percentage of a 50 cm tank;
- the `isVibrating` and `pumpStatus` flags;
- one `safe | warning | critical` status per sensor.

The Arduino serial simulator script states the moisture formula, the pump rule
and the vibration alert a second time. The model proves that the two
statements agree.

All arithmetic is exact (`real`), so every threshold claim is exact. The
values the route draws from `Math.random()` are a `Draws` parameter, each in
[0, 1). The route's scaling and flooring of those draws is modelled. The draws
give integer counts in [0, 1023] for vibration and [0, 1022] for soil
moisture, a distance in [15, 50) and a temperature in [20, 35).
`DeriveSensorData` takes those drawn values, with `requires` clauses for
exactly these ranges.

Modules:

- `SensorStatus` (status.dfy): the status datatype and its severity order.
- `SensorRoute` (sensor_route.dfy): the conversions, flags and classifiers of
  `app/api/sensors/route.ts`, with the properties proved about them.
- `SerialSimulation` (serial_simulation.dfy): the simulator's formula and
  predicates, and the lemmas that show they agree with the route.

The repository holds a second copy of the route,
`environmental-monitor (1)/app/api/sensors/route.ts`, which differs from the
modelled `environmental-monitor/app/api/sensors/route.ts`. The model follows
the latter:

- The second copy clamps moisture and water level to [0, 100] (its lines 18
  and 36). The modelled route does not clamp moisture at all, floors water
  level at 0 and has no upper cap. `SoilMoisture` and `WaterLevel` prove the
  unclamped behaviour outside the drawn ranges.
- The second copy computes magnitude as `2 + 3.5 * log10(9v/1023 + 1)` above
  300 counts, with status thresholds 2 and 4 (its lines 33 and 40). The
  modelled route uses the linear rule `v / 1024 * 6` above 300 counts, with
  thresholds 1 and 3.

## Model

| member | source | states |
|---|---|---|
| SensorStatus.Rank | environmental-monitor/app/api/sensors/route.ts:21-23 | the severity order safe < warning < critical: rank 0 exactly for safe, rank 2 exactly for critical, ranks within 0..2 |
| SensorStatus.AtMost | environmental-monitor/app/api/sensors/route.ts:21-23 | "no more severe than": holds exactly when the two statuses are equal, the first is safe, or the second is critical |
| SensorStatus.RankInjective | environmental-monitor/app/api/sensors/route.ts:21-23 | two statuses have the same rank exactly when they are equal |
| SensorStatus.SeverityBounds | environmental-monitor/app/api/sensors/route.ts:21-23 | safe is the least and critical the greatest status |
| SensorStatus.AtMostTotalOrder | environmental-monitor/app/api/sensors/route.ts:21-23 | "no more severe than" is reflexive, antisymmetric, transitive and total |
| SensorRoute.SoilMoisture | environmental-monitor/app/api/sensors/route.ts:10-11 | 100 percent at count 0, 0 at count 1023, in (0,100] for counts 0..1022; above 100 for negative counts and below 0 above 1023 (no clamp) |
| SensorRoute.Magnitude | environmental-monitor/app/api/sensors/route.ts:13-14 | never negative; zero exactly when the count is at most 300; above 1 for every count above 300; below 6 for counts up to 1023 |
| SensorRoute.WaterLevel | environmental-monitor/app/api/sensors/route.ts:16-18 | never negative; zero exactly at distances of 50 cm or more; in (0,70] for distances in [15,50); above 100 for negative distances (no upper clamp) |
| SensorRoute.IsVibrating | environmental-monitor/app/api/sensors/route.ts:29 | the vibration flag holds exactly when the magnitude is nonzero, and then the magnitude exceeds 1 |
| SensorRoute.PumpStatus | environmental-monitor/app/api/sensors/route.ts:37 | the pump flag holds exactly when the irrigation status is not safe |
| SensorRoute.EarthquakeStatus | environmental-monitor/app/api/sensors/route.ts:21 | critical exactly above magnitude 3, warning exactly in (1,3], safe exactly at 1 or below |
| SensorRoute.IrrigationStatus | environmental-monitor/app/api/sensors/route.ts:22 | critical exactly below 15 percent, warning exactly in [15,30), safe exactly at 30 or above |
| SensorRoute.FloodStatus | environmental-monitor/app/api/sensors/route.ts:23 | critical exactly below 10 cm, warning exactly in [10,20), safe exactly at 20 cm or more |
| SensorRoute.VibrationValueOf | environmental-monitor/app/api/sensors/route.ts:6 | a unit draw scaled by 1024 and floored is a count in [0,1023] |
| SensorRoute.SoilMoistureRawOf | environmental-monitor/app/api/sensors/route.ts:7 | a unit draw scaled by 1023 and floored is a count in [0,1022] |
| SensorRoute.DistanceOf | environmental-monitor/app/api/sensors/route.ts:8 | the drawn distance lies in [15,50) |
| SensorRoute.TemperatureOf | environmental-monitor/app/api/sensors/route.ts:36 | the drawn temperature lies in [20,35) |
| SensorRoute.DeriveSensorData | environmental-monitor/app/api/sensors/route.ts:4-48 | for drawn inputs: raw values echoed; magnitude, moisture and water level are the route's formulas of their own raw input and each status the route's classifier of its own value; magnitude in [0,6); isVibrating iff count > 300 iff earthquake not safe; earthquake critical iff count > 512; moisture in (0,100]; pump iff count >= 717 iff irrigation not safe; irrigation critical iff count >= 870; water level in (0,70]; flood never critical and warning iff distance < 20 |
| SensorRoute.GenerateSensorData | environmental-monitor/app/api/sensors/route.ts:4-48 | for draws in [0,1): the vibration count, soil-moisture count, distance and temperature are the scaled (and, for the counts, floored) draws, they lie inside the drawn ranges, and the reading is DeriveSensorData of them, so every DeriveSensorData guarantee holds |
| SensorRoute.SoilMoistureStrictlyDecreasing | environmental-monitor/app/api/sensors/route.ts:11 | a larger count always gives strictly less moisture |
| SensorRoute.IsVibratingIffEarthquakeNotSafe | environmental-monitor/app/api/sensors/route.ts:14-29 | for every count, isVibrating holds exactly when the earthquake status is not safe |
| SensorRoute.EarthquakeCriticalIffStrongVibration | environmental-monitor/app/api/sensors/route.ts:14-21 | earthquake status is critical exactly when the count exceeds 512 and warning exactly for counts 301..512 |
| SensorRoute.PumpIffRawAtLeast717 | environmental-monitor/app/api/sensors/route.ts:11-37 | for an integer count, the pump runs exactly when the count is at least 717 |
| SensorRoute.IrrigationTiersByRaw | environmental-monitor/app/api/sensors/route.ts:11-22 | irrigation is critical exactly for counts of 870 or more and warning exactly for counts 717..869 |
| SensorRoute.FloodNeverCriticalInDrawnRange | environmental-monitor/app/api/sensors/route.ts:8-23 | for distances in [15,50) flood status is never critical, and is warning exactly below 20 cm |
| SensorRoute.EarthquakeStatusMonotone | environmental-monitor/app/api/sensors/route.ts:21 | a larger magnitude never gives a less severe earthquake status |
| SensorRoute.IrrigationStatusAntitone | environmental-monitor/app/api/sensors/route.ts:22 | a lower moisture never gives a less severe irrigation status |
| SensorRoute.FloodStatusAntitone | environmental-monitor/app/api/sensors/route.ts:23 | a shorter distance never gives a less severe flood status |
| SensorRoute.RawSeverityMonotone | environmental-monitor/app/api/sensors/route.ts:11-22 | a larger vibration count or a larger soil-moisture count never lowers the corresponding severity |
| SensorRoute.SubReadingsIndependent | environmental-monitor/app/api/sensors/route.ts:25-46 | each sub-reading, status included, depends only on its own sensor's inputs |
| SensorRoute.GeneratedTiersReachable | environmental-monitor/app/api/sensors/route.ts:4-48 | some draw gives each earthquake tier and each irrigation tier; a flood tier is reachable exactly when it is not critical |
| SensorRoute.GeneratedUpperBoundsAttained | environmental-monitor/app/api/sensors/route.ts:7-18 | the closed upper ends of the moisture range (100) and water-level range (70) are attained by some draw |
| SerialSimulation.CalculateMoisturePercentage | environmental-monitor/scripts/test_serial_simulation.py:5-7 | 100 at count 0, 0 at count 1023, in [0,100] for counts 0..1023, negative above 1023 (no clamp) |
| SerialSimulation.PumpStatus | environmental-monitor/scripts/test_serial_simulation.py:28 | the simulator's pump rule equals the route's pump flag for every moisture value |
| SerialSimulation.VibrationAlert | environmental-monitor/scripts/test_serial_simulation.py:31 | the simulator's vibration alert equals the route's isVibrating for every count |
| SerialSimulation.SimulateReading | environmental-monitor/scripts/test_serial_simulation.py:19-31 | for the simulator's ranges (vibration 0..1024, soil 200..900): moisture is calculate_moisture_percentage of the count and lies in [12.02,80.45], pump iff count >= 717, alert iff vibration > 300 |
| SerialSimulation.MoistureStrictlyDecreasing | environmental-monitor/scripts/test_serial_simulation.py:7 | a larger count always gives strictly less moisture |
| SerialSimulation.MoistureInRealisticRange | environmental-monitor/scripts/test_serial_simulation.py:20-25 | counts 200..900 give moisture in [12.02,80.45] |
| SerialSimulation.PumpIffRawAtLeast717 | environmental-monitor/scripts/test_serial_simulation.py:25-28 | for an integer count, the pump runs exactly when the count is at least 717 |
| SerialSimulation.MoistureAgreesWithRoute | environmental-monitor/scripts/test_serial_simulation.py:7 | the simulator's formula equals the route's formula for every count |
| SerialSimulation.PumpAgreesWithRoute | environmental-monitor/scripts/test_serial_simulation.py:28 | the simulator's pump flag equals the route's, and holds exactly when the route's irrigation status is not safe |
| SerialSimulation.VibrationAlertAgreesWithRoute | environmental-monitor/scripts/test_serial_simulation.py:31 | the vibration alert holds exactly when the route's earthquake status is not safe |
| SerialSimulation.SimulatorAgreesWithRoute | environmental-monitor/scripts/test_serial_simulation.py:19-31 | where both draw ranges overlap, the simulator's moisture, pump flag and alert equal the route's reading |

## Left out

- The random number generators (`Math.random()`, `random.randint`, `random.random()`). The drawn values are parameters, constrained to the ranges the generators promise.
- Timestamps (`new Date().toISOString()`, `time.time()`). These are wall-clock reads and carry no logic.
- The GET and POST handlers, `NextResponse.json`, `request.json()`, the 500 responses and `console.log`. These are HTTP plumbing. GET always simulates, and POST stores nothing.
- The bulk endpoint (`app/api/sensors/bulk/route.ts`). It only logs its body and counts its records.
- The detail modal (`components/sensor-detail-modal.tsx`). It is presentation only. Its displayed magnitude thresholds (warning 3.0-4.9, critical 5.0+) do not match the route's tiers, and the route's tiers are the ones modelled.
- The second copy of the monitor (`environmental-monitor (1)`). It has a live/simulated store with a 10 s staleness timeout and a logarithmic magnitude. It is not part of this model.
- The simulator's printing, sleeping and `while True` loop, its distance and temperature draws, and its `round(…, 1)` and `:.1f` formatting. These are I/O and display.
- IEEE-754 floating point. Every formula is modelled over exact rationals, so rounding in the last binary digit is not captured.
- SerialSimulation.CalculateMoisturePercentage: takes integer counts only. The Python function accepts any number, but the simulator only passes `random.randint` values.
