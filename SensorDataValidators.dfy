/** The rules a device's reading must pass, and what they mean for the alerts it can raise. */
module SensorDataValidators {
  import opened Wrappers
  import opened Entities
  import opened Text
  import opened SensorDataHandlers
  import PlantValidators

  const DeviceIdRequired := "Device ID is required"
  const SoilOutOfRange := "Soil moisture must be between 0% and 100%"
  const WaterOutOfRange := "Water level must be between 0% and 100%"
  /** The degree sign is stored double-encoded in the validator's source file, and so in the message. */
  const TemperatureOutOfRange := "Temperature must be between -50Â°C and 100Â°C"
  const TimestampRequired := "Timestamp is required"
  const TimestampInFuture := "Timestamp cannot be more than 5 minutes in the future"

  predicate PercentInRange(x: real) { 0.0 <= x <= 100.0 }

  /** A rule's message when it fails. */
  function Check(ok: bool, message: string): seq<string> {
    if ok then [] else [message]
  }

  /**
   * RecordSensorDataCommandValidator. The future limit is computed once, when the
   * validator is built: `builtAt` is that moment, not the moment of the request.
   */
  function RecordValidation(req: RecordRequest, builtAt: Time): (r: seq<string>)
    ensures r == [] <==>
              && !IsBlank(req.deviceId)
              && PercentInRange(req.soilMoisture) && PercentInRange(req.waterLevel)
              && (req.temperature.None? || -50.0 <= req.temperature.value <= 100.0)
              && req.timestamp != DefaultTime && req.timestamp <= builtAt + 5 * Minute
    ensures |r| <= 6
  {
    Check(!IsBlank(req.deviceId), DeviceIdRequired)
    + Check(PercentInRange(req.soilMoisture), SoilOutOfRange)
    + Check(PercentInRange(req.waterLevel), WaterOutOfRange)
    + (if req.temperature.Some? then Check(-50.0 <= req.temperature.value <= 100.0, TemperatureOutOfRange) else [])
    + Check(req.timestamp != DefaultTime, TimestampRequired)
    + Check(req.timestamp <= builtAt + 5 * Minute, TimestampInFuture)
  }

  /**
   * A moisture alert needs a reading more than ten points under the plant's low
   * threshold. Under an accepted plant whose threshold is the lowest allowed, 10, no
   * accepted reading can be that low; above 10, a completely dry reading is.
   */
  lemma MoistureAlertReachable(alerts: seq<DeviceAlert>, deviceKey: int, plant: Plant,
                               req: RecordRequest, builtAt: Time, id: int, now: Time)
    requires RecordValidation(req, builtAt) == []
    requires PlantValidators.LowInRange(plant.moistureThresholdLow)
    ensures plant.moistureThresholdLow == 10 ==>
              !MoistureDue(alerts, deviceKey, Some(plant), Reading(id, now, deviceKey, req))
    ensures plant.moistureThresholdLow > 10 && req.soilMoisture == 0.0 ==>
              (MoistureDue(alerts, deviceKey, Some(plant), Reading(id, now, deviceKey, req))
               <==> !HasOpenAlert(alerts, deviceKey, MoistureCritical))
  {
  }

  /** An accepted reading with the water level at zero raises the critical low-water alert unless one is open. */
  lemma EmptyTankIsCritical(alerts: seq<DeviceAlert>, deviceKey: int, plant: Option<Plant>,
                            req: RecordRequest, builtAt: Time, id: int, firstId: int, now: Time)
    requires RecordValidation(req, builtAt) == [] && req.waterLevel == 0.0
    requires !HasOpenAlert(alerts, deviceKey, LowWater)
    ensures var r := NewAlerts(alerts, deviceKey, plant, Reading(id, now, deviceKey, req), firstId, now);
            |r| > 0 && r[0].alertType == LowWater && r[0].severity == Critical
  {
  }
}
