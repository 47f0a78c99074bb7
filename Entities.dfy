/**
 * The rows of the PlantMonitor database and the defaults their constructors give.
 * Every row carries the `Id` and `CreatedAt` of the entity base class; times are
 * whole seconds and `DateTime`'s default value is 0.
 */
module Entities {
  import opened Wrappers

  /** A point in time, in seconds. */
  type Time = int

  const Minute: int := 60

  /** `default(DateTime)`. */
  const DefaultTime: Time := 0

  datatype CommandType =
    UpdateConfiguration | ManualWatering | EmergencyStop | Restart
    | CalibrateSensors | EnableAutoWatering | DisableAutoWatering

  /** The life cycle of a device command; no modelled operation sets `Executing`. */
  datatype CommandStatus = Pending | Sent | Executing | Completed | Failed | Expired

  /**
   * The members of these enums that the core names; any other member, including the
   * one numbered 0 that `default` gives, is `Other…` with its number.
   */
  datatype DeviceType = ESP32PlantMonitor | OtherDeviceType(ordinal: int)
  datatype DeviceStatus = Active | OtherDeviceStatus(ordinal: int)
  datatype AlertSeverity = Warning | Error | Critical | OtherSeverity(ordinal: int)
  datatype TriggerType = Manual | OtherTrigger(ordinal: int)

  datatype AlertType = LowWater | SensorError | PumpError | Offline | MoistureCritical

  /** A queued instruction for a device; `deviceId` is the device row's `Id`. */
  datatype DeviceCommand = DeviceCommand(
    id: int, createdAt: Time,
    deviceId: int, commandType: CommandType, parameters: string, status: CommandStatus,
    executedAt: Option<Time>, acknowledgedAt: Option<Time>,
    executionResult: Option<string>, errorMessage: Option<string>,
    expiresAt: Time, priority: int)

  /** A device credential: only a hash of the secret is kept. */
  datatype ApiToken = ApiToken(
    id: int, createdAt: Time,
    deviceId: int, tokenHash: string, tokenName: Option<string>,
    expiresAt: Option<Time>, lastUsedAt: Option<Time>, isActive: bool, scopes: string)

  /** A device; `deviceId` is the external identifier, `id` the row key. */
  datatype Device = Device(
    id: int, createdAt: Time, updatedAt: Option<Time>,
    deviceId: string, userId: int, deviceName: string, deviceType: DeviceType,
    firmwareVersion: Option<string>, macAddress: Option<string>, wifiSsid: Option<string>,
    lastSeen: Option<Time>, isOnline: bool, status: DeviceStatus, location: Option<string>)

  datatype Plant = Plant(
    id: int, createdAt: Time, updatedAt: Option<Time>,
    deviceId: int, plantName: string, plantType: string, plantSpecies: Option<string>,
    ageWeeks: Option<int>, moistureThresholdLow: int, moistureThresholdHigh: int,
    wateringDuration: int, autoWateringEnabled: bool,
    plantImageUrl: Option<string>, notes: Option<string>)

  /** One sensor reading; the decimal measurements are exact, so `real`. */
  datatype SensorReading = SensorReading(
    id: int, createdAt: Time,
    deviceId: int, timestamp: Time, soilMoisture: real, waterLevel: real,
    soilMoistureRaw: Option<int>, waterLevelRaw: Option<int>,
    temperature: Option<real>, humidity: Option<real>, lightLevel: Option<int>, isValid: bool)

  datatype WateringEvent = WateringEvent(
    id: int, createdAt: Time,
    deviceId: int, plantId: Option<int>, timestamp: Time, triggerType: TriggerType,
    soilMoistureBefore: Option<real>, soilMoistureAfter: Option<real>,
    waterLevelBefore: Option<real>, waterLevelAfter: Option<real>,
    durationSeconds: int, waterAmountMl: Option<int>, wasSuccessful: bool,
    failureReason: Option<string>, notes: Option<string>)

  datatype DeviceAlert = DeviceAlert(
    id: int, createdAt: Time, updatedAt: Option<Time>,
    deviceId: int, alertType: AlertType, severity: AlertSeverity, title: string,
    message: string, isResolved: bool, resolvedAt: Option<Time>, resolvedBy: Option<int>,
    metadata: string)

  /** The part of an identity user the core reads. */
  datatype User = User(id: int, email: string, firstName: string, lastName: string, timeZone: string)

  /** `new DeviceCommand()` at time `now`. */
  function NewDeviceCommand(id: int, now: Time): (c: DeviceCommand)
    ensures c.id == id && c.createdAt == now
    ensures c.status == Pending && c.priority == 1 && c.parameters == "{}"
    ensures c.expiresAt == now + 10 * Minute
    ensures c.executedAt.None? && c.acknowledgedAt.None?
    ensures c.executionResult.None? && c.errorMessage.None?
  {
    DeviceCommand(id, now, 0, UpdateConfiguration, "{}", Pending, None, None, None, None,
                  now + 10 * Minute, 1)
  }

  /** `new ApiToken()` at time `now`: active, never expiring, never used. */
  function NewApiToken(id: int, now: Time): (t: ApiToken)
    ensures t.id == id && t.createdAt == now
    ensures t.isActive && t.expiresAt.None? && t.lastUsedAt.None?
    ensures t.scopes == "{}" && t.tokenHash == "" && t.tokenName.None?
  {
    ApiToken(id, now, 0, "", None, None, None, true, "{}")
  }

  /** `new Device()` at time `now`: offline, active, an ESP32 monitor, with empty names. */
  function NewDevice(id: int, now: Time): (d: Device)
    ensures d.id == id && d.createdAt == now
    ensures !d.isOnline && d.status == Active && d.deviceType == ESP32PlantMonitor
    ensures d.deviceId == "" && d.deviceName == ""
    ensures d.lastSeen.None? && d.location.None? && d.firmwareVersion.None?
  {
    Device(id, now, None, "", 0, "", ESP32PlantMonitor, None, None, None, None, false, Active, None)
  }

  /** `new Plant()` at time `now`: thresholds 30/70, 10 seconds of watering, automatic. */
  function NewPlant(id: int, now: Time): (p: Plant)
    ensures p.id == id && p.createdAt == now
    ensures p.moistureThresholdLow == 30 && p.moistureThresholdHigh == 70
    ensures p.wateringDuration == 10 && p.autoWateringEnabled
  {
    Plant(id, now, None, 0, "", "", None, None, 30, 70, 10, true, None, None)
  }

  /** `new DeviceAlert()` at time `now`: unresolved, with empty texts. */
  function NewDeviceAlert(id: int, now: Time): (a: DeviceAlert)
    ensures a.id == id && a.createdAt == now
    ensures !a.isResolved && a.resolvedAt.None? && a.resolvedBy.None? && a.metadata == "{}"
  {
    DeviceAlert(id, now, None, 0, LowWater, OtherSeverity(0), "", "", false, None, None, "{}")
  }

  /** `new WateringEvent()` at time `now`: successful unless set otherwise. */
  function NewWateringEvent(id: int, now: Time): (w: WateringEvent)
    ensures w.id == id && w.createdAt == now && w.wasSuccessful && w.plantId.None?
  {
    WateringEvent(id, now, 0, None, DefaultTime, OtherTrigger(0), None, None, None, None, 0, None, true, None, None)
  }
}
