# esp_node sensor classification, modelled in Dafny

This project models the sensor-reading classification of the esp_node field-sensor firmware. That firmware runs on an ESP32 node that samples a BME280 ambient sensor and a soil-moisture probe.

- **Soil moisture** (`src/sensor/soil.rs`). A raw ADC sample (`u16`) below 1000 means the probe is not connected, which is an error and not 0 %. Otherwise the sample is clamped between the dry (1300) and wet (2800) calibration points and mapped linearly onto 0–100 %. The percentage is then bucketed into `Dry` / `Optimal` / `Damp` / `Wet` at 20, 40 and 55 %.
- **Ambient status** (`src/sensor/bme280.rs`). The driver returns an error, no value, or a value for each quantity. The temperature, humidity and pressure classifiers turn a present value into a band. An error or a missing value gives no status.

Modules:

- `Wrappers` (wrappers.dfy): `Option`, and `Result` with Rust's `Ok`/`Err`.
- `Bands` (bands.dfy): the rule shared by every classifier. `Reached(ts, x)` counts the thresholds at or below `x`. On ascending thresholds that count is the one band `x` lies in, and a value on a threshold takes the higher band. The count never decreases as `x` grows.
- `Soil` (soil.dfy): the `u16` newtype, the calibration constants, `MoisturePercentage`, `SoilStatusOf` and `ReadSoilStatus`. `raw - MAX_DRY` is computed in `u16`, so the verifier checks that the guard before it rules out underflow. `MOISTURE_RANGE` is checked the same way.
- `Bme280` (bme280.dfy): the three status enums, the three classifiers and the three `Read*Status` functions. The driver's answer is a `Result<Option<real>, DriverError>` parameter.

Each classifier's postcondition ties its result's `Rank()` to `Bands.Reached` over its own threshold list. The band, boundary and monotonicity lemmas follow from that.

Two edge cases of the code:

- Readings below 1000 are `SensorNotConnected`; readings from 1000 to 1299 give 0 % (soil.rs:60-66).
- A humidity of exactly 70 is `Wet` (bme280.rs:78-79).

## Model

| member | source | states |
|---|---|---|
| `Soil.MoisturePercentage` | src/sensor/soil.rs:59-73 | The result is an error exactly when the raw sample is below 1000, and that error is `SensorNotConnected`. Every `Ok` percentage lies in [0, 100]. The `u16` subtraction cannot underflow. |
| `Soil.MoistureRangeValue` | src/sensor/soil.rs:7-10 | `MOISTURE_RANGE = MAX_WET - MAX_DRY` is 1500 and stays within `u16`. |
| `Soil.BelowDryIsZero` | src/sensor/soil.rs:65-66 | A connected sample below 1300 gives exactly 0 %. |
| `Soil.AboveWetIsFull` | src/sensor/soil.rs:67-68 | A sample above 2800 gives exactly 100 %. |
| `Soil.LinearSpan` | src/sensor/soil.rs:71-72 | On [1300, 2800] the percentage is (raw − 1300) / 15, which is (raw − 1300) / 1500 × 100. |
| `Soil.PercentageRoundTrip` | src/sensor/soil.rs:71-72 | On [1300, 2800] the map can be inverted: 1300 + p × 1500 / 100 gives back the raw sample. |
| `Soil.PercentageMonotone` | src/sensor/soil.rs:59-73 | On connected samples, a larger raw sample never gives a smaller percentage, including across both clamps. |
| `Soil.PercentageExamples` | src/sensor/soil.rs:65-72 | 1300 gives 0 %, 2050 gives 50 % and 2800 gives 100 %. |
| `Soil.SoilStatusOf` | src/sensor/soil.rs:83-88 | The status's rank is the number of the thresholds 20, 40 and 55 that the percentage has reached. |
| `Soil.SoilBands` | src/sensor/soil.rs:83-88 | The bands are p < 20 Dry, 20 ≤ p < 40 Optimal, 40 ≤ p < 55 Damp and p ≥ 55 Wet, each stated as an if-and-only-if. |
| `Soil.SoilStatusMonotone` | src/sensor/soil.rs:83-88 | A larger percentage never gives a drier status. |
| `Soil.ReadSoilStatus` | src/sensor/soil.rs:80-89 | There is no status exactly when the percentage is an error, which is exactly when the sample is below 1000. Otherwise there is one status, banded on the percentage. |
| `Soil.SoilStatusByRaw` | src/sensor/soil.rs:59-89 | In raw terms: below 1000 there is no status, 1000–1599 is Dry, 1600–1899 Optimal, 1900–2124 Damp and 2125 and above Wet. |
| `Soil.ReadSoilStatusMonotone` | src/sensor/soil.rs:59-89 | For two connected samples, both have a status, and the wetter sample's status is never drier. |
| `Soil.ScenarioNotConnected` | src/sensor/soil.rs:60-63 | A raw sample of 500 gives `Err(SensorNotConnected)`, which differs from `Ok(0.0)`, and no status. |
| `Soil.ScenarioMidpoint` | src/sensor/soil.rs:59-88 | A raw sample of 2050 gives 50 %, which is `Damp`. |
| `Bands.ReachedIsBand` | src/sensor/bme280.rs:66-70 | With ascending thresholds, a value that has reached k thresholds lies at or above threshold k−1 and below threshold k. This is the meaning of a chain of `<` guards. |
| `Bands.BandIff` | src/sensor/bme280.rs:66-70 | With ascending thresholds, exactly one band applies: a value is in band k if and only if it has reached k thresholds. |
| `Bands.ReachedMonotone` | src/sensor/bme280.rs:66-70 | A larger value never reaches fewer thresholds. |
| `Bme280.Present` | src/sensor/bme280.rs:65 | `.ok()??` yields a value exactly when the driver succeeded and returned one, and that value is the driver's own. |
| `Bme280.TempStatusOf` | src/sensor/bme280.rs:66-71 | The temperature status's rank is the number of the thresholds 0, 18 and 25 that the value has reached. |
| `Bme280.HumidityStatusOf` | src/sensor/bme280.rs:75-80 | The humidity status's rank is the number of the thresholds 30, 50 and 70 that the value has reached. |
| `Bme280.PressureStatusOf` | src/sensor/bme280.rs:84-88 | The pressure status's rank is the number of the thresholds 1000 and 1013 that the value has reached. |
| `Bme280.ReadTemperatureStatus` | src/sensor/bme280.rs:64-72 | There is no status exactly when the driver erred or had no value. Otherwise the status is the band of the value. |
| `Bme280.ReadHumidityStatus` | src/sensor/bme280.rs:73-81 | There is no status exactly when the driver erred or had no value. Otherwise the status is the band of the value. |
| `Bme280.ReadPressureStatus` | src/sensor/bme280.rs:82-89 | There is no status exactly when the driver erred or had no value. Otherwise the status is the band of the value. |
| `Bme280.TemperatureBands` | src/sensor/bme280.rs:67-70 | Freezing is t < 0, Cold is 0 ≤ t < 18, Optimal is 18 ≤ t < 25 and Hot is t ≥ 25, each an if-and-only-if. |
| `Bme280.HumidityBands` | src/sensor/bme280.rs:76-79 | Dry is h < 30, Optimal is 30 ≤ h < 50, Moist is 50 ≤ h < 70 and Wet is h ≥ 70, each an if-and-only-if. |
| `Bme280.PressureBands` | src/sensor/bme280.rs:85-87 | Low is p < 1000, Optimal is 1000 ≤ p < 1013 and High is p ≥ 1013, each an if-and-only-if. |
| `Bme280.TemperatureMonotone` | src/sensor/bme280.rs:66-71 | A higher temperature never gives a colder status. |
| `Bme280.HumidityMonotone` | src/sensor/bme280.rs:75-80 | A higher humidity never gives a drier status. |
| `Bme280.PressureMonotone` | src/sensor/bme280.rs:84-88 | A higher pressure never gives a lower status. |
| `Bme280.FailedReadsGiveNothing` | src/sensor/bme280.rs:64-89 | For all three quantities, a driver error and an absent value each give `None`. |
| `Bme280.ScenarioHumidity` | src/sensor/bme280.rs:73-80 | A humidity reading of 65.0 gives `Moist`. |

## Left out

- Floating point: the source computes in `f32`, and the model uses `real`. It does not capture rounding of the division at soil.rs:72. It also does not capture NaN, which fails every `<` guard in the source and so lands in the top band (`Wet`, `Hot`, `High`).
- The ADC read `get_raw_moisture` (soil.rs:53-56) is hardware I/O. The raw sample is a parameter instead. That function panics on an ADC error instead of returning `Err`, so the `EspError` case is never produced, and the model declares it but never returns it.
- `SoilMoisture::new` (soil.rs:45-50) only stores hardware handles.
- The `Display` impl of `SoilStatus` (soil.rs:22-31) only produces log strings.
- `Bme280Extention::configure` (bme280.rs:43-63) is I2C driver calls and logging.
- The `Bme280Error` enum (bme280.rs:9-13) is declared but never constructed or returned anywhere in bme280.rs, soil.rs or main.rs. The driver's own error type is modelled only as `DriverError`, with no detail.
- Units: the model does not know the driver's pressure unit. The thresholds 1000 and 1013 are compared with the value exactly as the driver returns it.
- All of src/main.rs is not part of this model. That covers the executor, Wi-Fi connection management, the network-stack task, the readiness wait, and the webhook publisher. It is asynchronous I/O over the embassy-net, esp-wifi and reqwless crates. No sensor-sampling loop or deep-sleep call appears in the source.
