/**
 * The sensor-data handlers: recording a reading (which marks the device online and
 * may raise low-water and critical-moisture alerts), the latest valid reading, and
 * the valid readings of a time window.
 */
module SensorDataHandlers {
  import opened Wrappers
  import opened Entities
  import opened Sequences
  import opened Store
  import opened ApiResponses

  datatype RecordRequest = RecordRequest(
    deviceId: string, timestamp: Time, soilMoisture: real, waterLevel: real,
    soilMoistureRaw: Option<int>, waterLevelRaw: Option<int>, temperature: Option<real>, isValid: bool)

  /** The reading row the handler stores; humidity and light are never filled in. */
  function Reading(id: int, now: Time, deviceKey: int, req: RecordRequest): (s: SensorReading)
    ensures s.id == id && s.createdAt == now && s.deviceId == deviceKey && s.timestamp == req.timestamp
    ensures s.soilMoisture == req.soilMoisture && s.waterLevel == req.waterLevel && s.isValid == req.isValid
    ensures s.soilMoistureRaw == req.soilMoistureRaw && s.waterLevelRaw == req.waterLevelRaw
    ensures s.temperature == req.temperature && s.humidity.None? && s.lightLevel.None?
  {
    SensorReading(id, now, deviceKey, req.timestamp, req.soilMoisture, req.waterLevel,
                  req.soilMoistureRaw, req.waterLevelRaw, req.temperature, None, None, req.isValid)
  }

  /** An unresolved alert of that type for that device. */
  predicate IsOpen(a: DeviceAlert, deviceKey: int, alertType: AlertType) {
    a.deviceId == deviceKey && a.alertType == alertType && !a.isResolved
  }

  predicate HasOpenAlert(alerts: seq<DeviceAlert>, deviceKey: int, alertType: AlertType) {
    exists i :: 0 <= i < |alerts| && IsOpen(alerts[i], deviceKey, alertType)
  }

  /** The alert texts, which the source writes without string interpolation. */
  const LowWaterTitle := "Low Water Level"
  const LowWaterMessage := "Water tank level is at {sensorData.WaterLevel:F1}%. Please refill soon."
  const MoistureTitle := "Critical Soil Moisture"
  const MoistureMessage := "{device.Plant.PlantName} soil moisture is critically low at {sensorData.SoilMoisture:F1}%"

  const LowWaterLevel: real := 15.0
  const CriticalWaterLevel: real := 5.0

  function LowWaterAlert(id: int, now: Time, deviceKey: int, waterLevel: real): DeviceAlert {
    NewDeviceAlert(id, now).(deviceId := deviceKey, alertType := LowWater,
      severity := if waterLevel < CriticalWaterLevel then Critical else Warning,
      title := LowWaterTitle, message := LowWaterMessage)
  }

  function MoistureAlert(id: int, now: Time, deviceKey: int): DeviceAlert {
    NewDeviceAlert(id, now).(deviceId := deviceKey, alertType := MoistureCritical, severity := Error,
      title := MoistureTitle, message := MoistureMessage)
  }

  predicate LowWaterDue(alerts: seq<DeviceAlert>, deviceKey: int, reading: SensorReading) {
    reading.waterLevel < LowWaterLevel && !HasOpenAlert(alerts, deviceKey, LowWater)
  }

  predicate MoistureDue(alerts: seq<DeviceAlert>, deviceKey: int, plant: Option<Plant>, reading: SensorReading) {
    plant.Some? && reading.soilMoisture < (plant.value.moistureThresholdLow - 10) as real
    && !HasOpenAlert(alerts, deviceKey, MoistureCritical)
  }

  /**
   * CheckAndCreateAlerts as a function: the alerts one reading raises, numbered from
   * `firstId`. Both existence checks look at the stored alerts only.
   */
  function NewAlerts(alerts: seq<DeviceAlert>, deviceKey: int, plant: Option<Plant>, reading: SensorReading,
                     firstId: int, now: Time): (r: seq<DeviceAlert>)
    ensures |r| <= 2
    ensures forall k :: 0 <= k < |r| ==>
              r[k].deviceId == deviceKey && !r[k].isResolved && r[k].id == firstId + k && r[k].createdAt == now
              && r[k].alertType in {LowWater, MoistureCritical}
    ensures forall j, k :: 0 <= j < k < |r| ==> r[j].alertType != r[k].alertType
    ensures (exists k :: 0 <= k < |r| && r[k].alertType == LowWater) <==> LowWaterDue(alerts, deviceKey, reading)
    ensures (exists k :: 0 <= k < |r| && r[k].alertType == MoistureCritical) <==> MoistureDue(alerts, deviceKey, plant, reading)
    ensures forall k :: 0 <= k < |r| && r[k].alertType == LowWater ==>
              r[k].severity == (if reading.waterLevel < CriticalWaterLevel then Critical else Warning)
              && r[k].title == LowWaterTitle
    ensures forall k :: 0 <= k < |r| && r[k].alertType == MoistureCritical ==>
              r[k].severity == Error && r[k].title == MoistureTitle
  {
    var low := if LowWaterDue(alerts, deviceKey, reading) then [LowWaterAlert(firstId, now, deviceKey, reading.waterLevel)] else [];
    var moist := if MoistureDue(alerts, deviceKey, plant, reading) then [MoistureAlert(firstId + |low|, now, deviceKey)] else [];
    var r := low + moist;
    assert LowWaterDue(alerts, deviceKey, reading) ==> r[0].alertType == LowWater;
    assert MoistureDue(alerts, deviceKey, plant, reading) ==> r[|low|].alertType == MoistureCritical;
    r
  }

  /** At most one unresolved alert of the type for the device. */
  predicate OneOpen(alerts: seq<DeviceAlert>, deviceKey: int, alertType: AlertType) {
    forall i, j :: 0 <= i < j < |alerts| && IsOpen(alerts[i], deviceKey, alertType) ==> !IsOpen(alerts[j], deviceKey, alertType)
  }

  /** Recording never opens a second alert of a type that is already open. */
  lemma NewAlertsKeepOneOpen(alerts: seq<DeviceAlert>, deviceKey: int, plant: Option<Plant>, reading: SensorReading,
                             firstId: int, now: Time, alertType: AlertType)
    requires OneOpen(alerts, deviceKey, alertType)
    ensures OneOpen(alerts + NewAlerts(alerts, deviceKey, plant, reading, firstId, now), deviceKey, alertType)
  {
    var r := NewAlerts(alerts, deviceKey, plant, reading, firstId, now);
    var all := alerts + r;
    forall i, j | 0 <= i < j < |all| && IsOpen(all[i], deviceKey, alertType) ensures !IsOpen(all[j], deviceKey, alertType) {
      if j >= |alerts| && i < |alerts| {
        assert HasOpenAlert(alerts, deviceKey, alertType);
        assert all[j] == r[j - |alerts|];
      } else if i >= |alerts| {
        assert all[i] == r[i - |alerts|] && all[j] == r[j - |alerts|];
      }
    }
  }

  /** A second reading raises no alert that the first left open. */
  lemma RepeatedReadingRaisesNoDuplicate(alerts: seq<DeviceAlert>, deviceKey: int, plant: Option<Plant>,
                                         reading: SensorReading, again: SensorReading, firstId: int, nextId: int, now: Time)
    ensures var first := NewAlerts(alerts, deviceKey, plant, reading, firstId, now);
            var second := NewAlerts(alerts + first, deviceKey, plant, again, nextId, now);
            forall j, k :: 0 <= j < |first| && 0 <= k < |second| ==> first[j].alertType != second[k].alertType
  {
    var first := NewAlerts(alerts, deviceKey, plant, reading, firstId, now);
    forall j | 0 <= j < |first| ensures HasOpenAlert(alerts + first, deviceKey, first[j].alertType) {
      assert (alerts + first)[|alerts| + j] == first[j];
    }
  }

  /** The plant the device row loads with it. */
  function PlantOf(plants: seq<Plant>, deviceKey: int): (r: Option<Plant>)
    ensures r.Some? ==> r.value in plants && r.value.deviceId == deviceKey
    ensures r.None? <==> forall i :: 0 <= i < |plants| ==> plants[i].deviceId != deviceKey
  {
    match PlantIndexOfDevice(plants, deviceKey)
    case None => None
    case Some(i) => Some(plants[i])
  }

  /** CheckAndCreateAlerts: the two rules in turn; the notifications it sends are not modelled. */
  method CheckAndCreateAlerts(db: Database, deviceKey: int, plant: Option<Plant>, reading: SensorReading, now: Time)
    requires db.Valid()
    modifies db`alerts, db`nextId
    ensures db.Valid()
    ensures db.alerts == old(db.alerts) + NewAlerts(old(db.alerts), deviceKey, plant, reading, old(db.nextId), now)
    ensures db.nextId == old(db.nextId) + |NewAlerts(old(db.alerts), deviceKey, plant, reading, old(db.nextId), now)|
  {
    var stored := db.alerts;
    if LowWaterDue(stored, deviceKey, reading) {
      var id := db.NewId();
      db.alerts := db.alerts + [LowWaterAlert(id, now, deviceKey, reading.waterLevel)];
    }
    if MoistureDue(stored, deviceKey, plant, reading) {
      var id := db.NewId();
      db.alerts := db.alerts + [MoistureAlert(id, now, deviceKey)];
    }
  }

  /** RecordSensorDataHandler: the device is marked seen and online, the reading stored, alerts raised. */
  method RecordSensorData(db: Database, req: RecordRequest, now: Time) returns (r: ApiResponse<SensorReading>)
    requires db.Valid()
    modifies db`devices, db`readings, db`alerts, db`nextId
    ensures db.Valid()
    ensures match DeviceIndex(old(db.devices), req.deviceId)
            case None =>
              && r == ErrorResult("Device not found")
              && db.devices == old(db.devices) && db.readings == old(db.readings) && db.alerts == old(db.alerts)
            case Some(i) =>
              var key := old(db.devices)[i].id;
              var reading := Reading(old(db.nextId), now, key, req);
              && db.devices == old(db.devices)[i := old(db.devices)[i].(lastSeen := Some(now), isOnline := true)]
              && db.readings == old(db.readings) + [reading]
              && db.alerts == old(db.alerts) + NewAlerts(old(db.alerts), key, PlantOf(db.plants, key), reading, old(db.nextId) + 1, now)
              && r == SuccessResult(reading, None)
  {
    var found := DeviceIndex(db.devices, req.deviceId);
    if found.None? {
      return ErrorResult("Device not found");
    }
    var i := found.value;
    var device := db.devices[i];
    var seen := device.(lastSeen := Some(now), isOnline := true);
    UpdateDevice(db.devices, i, seen, db.nextId);
    db.devices := db.devices[i := seen];
    var id := db.NewId();
    var reading := Reading(id, now, device.id, req);
    db.readings := db.readings + [reading];
    var plant := PlantOf(db.plants, device.id);
    ghost var raised := NewAlerts(db.alerts, device.id, plant, reading, db.nextId, now);
    assert raised == NewAlerts(old(db.alerts), old(db.devices)[i].id, plant, reading, old(db.nextId) + 1, now);
    CheckAndCreateAlerts(db, device.id, plant, reading, now);
    assert db.alerts == old(db.alerts) + raised;
    r := SuccessResult(reading, None);
  }

  function ValidOf(deviceKey: int): SensorReading -> bool {
    (s: SensorReading) => s.deviceId == deviceKey && s.isValid
  }

  /** OrderByDescending(Timestamp). */
  predicate LaterFirst(a: SensorReading, b: SensorReading) {
    a.timestamp >= b.timestamp
  }

  /** The valid reading of the device with the greatest timestamp. */
  function LatestReading(readings: seq<SensorReading>, deviceKey: int): (r: Option<SensorReading>)
    ensures r.Some? ==> r.value in readings && r.value.deviceId == deviceKey && r.value.isValid
    ensures r.Some? ==> forall x :: x in readings && x.deviceId == deviceKey && x.isValid ==> x.timestamp <= r.value.timestamp
    ensures r.None? <==> forall x :: x in readings ==> !(x.deviceId == deviceKey && x.isValid)
  {
    assert TotalPreorder(LaterFirst);
    var q := Query(readings, ValidOf(deviceKey), LaterFirst, 1);
    if |q| == 0 then None else Some(q[0])
  }

  /** GetLatestSensorDataHandler. */
  function GetLatest(devices: seq<Device>, readings: seq<SensorReading>, deviceId: string): (r: ApiResponse<SensorReading>)
    ensures DeviceIndex(devices, deviceId).None? ==> r == ErrorResult("Device not found")
    ensures r.success ==> r.data.Some? && r.data.value in readings && r.data.value.isValid
    ensures DeviceIndex(devices, deviceId).Some? ==>
              var key := devices[DeviceIndex(devices, deviceId).value].id;
              && (r == ErrorResult("No sensor data found") <==> forall x :: x in readings ==> !(x.deviceId == key && x.isValid))
              && (r.success ==> r.data.value.deviceId == key)
              && (r.success ==> forall x :: x in readings && x.deviceId == key && x.isValid ==> x.timestamp <= r.data.value.timestamp)
  {
    match DeviceIndex(devices, deviceId)
    case None => ErrorResult("Device not found")
    case Some(i) =>
      match LatestReading(readings, devices[i].id)
      case None => ErrorResult("No sensor data found")
      case Some(s) => SuccessResult(s, None)
  }

  function InWindow(deviceKey: int, from: Time, to: Time): SensorReading -> bool {
    (s: SensorReading) => s.deviceId == deviceKey && s.isValid && from <= s.timestamp <= to
  }

  const HistoryLimit := 1000

  /** The readings of GetSensorDataHistoryHandler: valid, inside [from, to], newest first, at most 1000. */
  function History(readings: seq<SensorReading>, deviceKey: int, from: Time, to: Time): (r: seq<SensorReading>)
    ensures var m := |Filter(readings, InWindow(deviceKey, from, to))|;
            |r| == if m <= HistoryLimit then m else HistoryLimit
    ensures multiset(r) <= multiset(Filter(readings, InWindow(deviceKey, from, to)))
    ensures forall k :: 0 <= k < |r| ==>
              r[k] in readings && r[k].deviceId == deviceKey && r[k].isValid && from <= r[k].timestamp <= to
    ensures SortedBy(r, LaterFirst)
    ensures |Filter(readings, InWindow(deviceKey, from, to))| <= HistoryLimit ==>
              multiset(r) == multiset(Filter(readings, InWindow(deviceKey, from, to)))
    ensures forall x :: x in readings && InWindow(deviceKey, from, to)(x) && x !in r ==>
              forall k :: 0 <= k < |r| ==> r[k].timestamp >= x.timestamp
  {
    assert TotalPreorder(LaterFirst);
    Query(readings, InWindow(deviceKey, from, to), LaterFirst, HistoryLimit)
  }

  /** GetSensorDataHistoryHandler. */
  function GetHistory(devices: seq<Device>, readings: seq<SensorReading>, deviceId: string, from: Time, to: Time)
    : (r: ApiResponse<seq<SensorReading>>)
    ensures DeviceIndex(devices, deviceId).None? <==> r == ErrorResult("Device not found")
    ensures r.success ==> r.data == Some(History(readings, devices[DeviceIndex(devices, deviceId).value].id, from, to))
  {
    match DeviceIndex(devices, deviceId)
    case None => ErrorResult("Device not found")
    case Some(i) => SuccessResult(History(readings, devices[i].id, from, to), None)
  }

  /** An empty window yields no readings. */
  lemma EmptyWindowIsEmpty(readings: seq<SensorReading>, deviceKey: int, from: Time, to: Time)
    requires to < from
    ensures History(readings, deviceKey, from, to) == []
  {
  }
}
