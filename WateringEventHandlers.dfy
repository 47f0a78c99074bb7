/**
 * The watering-event handlers: recording an event the device reports, the history
 * and the latest event of a device, and a manual watering triggered from the app.
 */
module WateringEventHandlers {
  import opened Wrappers
  import opened Entities
  import opened Sequences
  import opened Text
  import opened Store
  import opened ApiResponses

  datatype RecordRequest = RecordRequest(
    deviceId: string, timestamp: Time, triggerType: TriggerType,
    soilMoistureBefore: Option<real>, soilMoistureAfter: Option<real>,
    waterLevelBefore: Option<real>, waterLevelAfter: Option<real>,
    durationSeconds: int, wasSuccessful: bool, failureReason: Option<string>)

  /** The key of the plant loaded with the device, if it has one. */
  function PlantKeyOf(plants: seq<Plant>, deviceKey: int): (r: Option<int>)
    ensures r.Some? ==> exists i :: 0 <= i < |plants| && plants[i].deviceId == deviceKey && plants[i].id == r.value
    ensures r.None? <==> forall i :: 0 <= i < |plants| ==> plants[i].deviceId != deviceKey
  {
    match PlantIndexOfDevice(plants, deviceKey)
    case None => None
    case Some(i) => Some(plants[i].id)
  }

  /** The event row RecordWateringEventHandler stores: the request's fields on the device's keys. */
  function Recorded(id: int, now: Time, deviceKey: int, plantKey: Option<int>, req: RecordRequest): (w: WateringEvent)
    ensures w.id == id && w.createdAt == now && w.deviceId == deviceKey && w.plantId == plantKey
    ensures w.timestamp == req.timestamp && w.triggerType == req.triggerType
    ensures w.durationSeconds == req.durationSeconds && w.wasSuccessful == req.wasSuccessful
    ensures w.failureReason == req.failureReason && w.waterAmountMl.None? && w.notes.None?
    ensures w.soilMoistureBefore == req.soilMoistureBefore && w.soilMoistureAfter == req.soilMoistureAfter
    ensures w.waterLevelBefore == req.waterLevelBefore && w.waterLevelAfter == req.waterLevelAfter
  {
    NewWateringEvent(id, now).(deviceId := deviceKey, plantId := plantKey, timestamp := req.timestamp,
      triggerType := req.triggerType, soilMoistureBefore := req.soilMoistureBefore,
      soilMoistureAfter := req.soilMoistureAfter, waterLevelBefore := req.waterLevelBefore,
      waterLevelAfter := req.waterLevelAfter, durationSeconds := req.durationSeconds,
      wasSuccessful := req.wasSuccessful, failureReason := req.failureReason)
  }

  /**
   * RecordWateringEventHandler. The FailureReason and Notes column lengths and the
   * decimal(5,2) precision are not part of the model, which therefore never fails the save.
   */
  method RecordEvent(db: Database, req: RecordRequest, now: Time) returns (r: ApiResponse<WateringEvent>)
    requires db.Valid()
    modifies db`wateringEvents, db`nextId
    ensures db.Valid()
    ensures match DeviceIndex(db.devices, req.deviceId)
            case None => r == ErrorResult("Device not found") && db.wateringEvents == old(db.wateringEvents)
            case Some(i) =>
              var w := Recorded(old(db.nextId), now, db.devices[i].id, PlantKeyOf(db.plants, db.devices[i].id), req);
              db.wateringEvents == old(db.wateringEvents) + [w] && r == SuccessResult(w, None)
  {
    var found := DeviceIndex(db.devices, req.deviceId);
    if found.None? {
      return ErrorResult("Device not found");
    }
    var device := db.devices[found.value];
    var id := db.NewId();
    var w := Recorded(id, now, device.id, PlantKeyOf(db.plants, device.id), req);
    db.wateringEvents := db.wateringEvents + [w];
    r := SuccessResult(w, None);
  }

  /** OrderByDescending(Timestamp). */
  predicate LaterFirst(a: WateringEvent, b: WateringEvent) {
    a.timestamp >= b.timestamp
  }

  /** The optional [from, to] filters of the history query. */
  predicate Within(w: WateringEvent, from: Option<Time>, to: Option<Time>) {
    (from.None? || from.value <= w.timestamp) && (to.None? || w.timestamp <= to.value)
  }

  function InHistory(deviceKey: int, from: Option<Time>, to: Option<Time>): WateringEvent -> bool {
    (w: WateringEvent) => w.deviceId == deviceKey && Within(w, from, to)
  }

  const HistoryLimit := 100

  /** The events of GetWateringHistoryHandler: the device's, inside the bounds given, newest first, at most 100. */
  function History(events: seq<WateringEvent>, deviceKey: int, from: Option<Time>, to: Option<Time>): (r: seq<WateringEvent>)
    ensures var m := |Filter(events, InHistory(deviceKey, from, to))|;
            |r| == if m <= HistoryLimit then m else HistoryLimit
    ensures multiset(r) <= multiset(Filter(events, InHistory(deviceKey, from, to)))
    ensures forall k :: 0 <= k < |r| ==> r[k] in events && r[k].deviceId == deviceKey && Within(r[k], from, to)
    ensures SortedBy(r, LaterFirst)
    ensures |Filter(events, InHistory(deviceKey, from, to))| <= HistoryLimit ==>
              multiset(r) == multiset(Filter(events, InHistory(deviceKey, from, to)))
    ensures forall x :: x in events && x.deviceId == deviceKey && Within(x, from, to) && x !in r ==>
              forall k :: 0 <= k < |r| ==> r[k].timestamp >= x.timestamp
  {
    var keep := InHistory(deviceKey, from, to);
    assert forall w :: keep(w) <==> w.deviceId == deviceKey && Within(w, from, to);
    assert TotalPreorder(LaterFirst);
    Query(events, keep, LaterFirst, HistoryLimit)
  }

  /** GetWateringHistoryHandler. */
  function GetHistory(devices: seq<Device>, events: seq<WateringEvent>, deviceId: string, from: Option<Time>, to: Option<Time>)
    : (r: ApiResponse<seq<WateringEvent>>)
    ensures DeviceIndex(devices, deviceId).None? <==> r == ErrorResult("Device not found")
    ensures r.success ==> r.data == Some(History(events, devices[DeviceIndex(devices, deviceId).value].id, from, to))
  {
    match DeviceIndex(devices, deviceId)
    case None => ErrorResult("Device not found")
    case Some(i) => SuccessResult(History(events, devices[i].id, from, to), None)
  }

  /** Without bounds the history keeps every event of the device while there are at most 100. */
  lemma UnboundedHistoryKeepsAll(events: seq<WateringEvent>, deviceKey: int, w: WateringEvent)
    requires w in events && w.deviceId == deviceKey
    requires |Filter(events, InHistory(deviceKey, None, None))| <= HistoryLimit
    ensures w in History(events, deviceKey, None, None)
  {
    var r := History(events, deviceKey, None, None);
    assert InHistory(deviceKey, None, None)(w);
    assert w in multiset(Filter(events, InHistory(deviceKey, None, None)));
    assert w in multiset(r);
  }

  /** The device's event with the greatest timestamp. */
  function LatestEvent(events: seq<WateringEvent>, deviceKey: int): (r: Option<WateringEvent>)
    ensures r.Some? ==> r.value in events && r.value.deviceId == deviceKey
    ensures r.Some? ==> forall x :: x in events && x.deviceId == deviceKey ==> x.timestamp <= r.value.timestamp
    ensures r.None? <==> forall x :: x in events ==> x.deviceId != deviceKey
  {
    assert TotalPreorder(LaterFirst);
    var q := Query(events, InHistory(deviceKey, None, None), LaterFirst, 1);
    assert forall x :: x in events && x.deviceId == deviceKey ==> InHistory(deviceKey, None, None)(x);
    if |q| == 0 then None else Some(q[0])
  }

  /** GetLatestWateringEventHandler. */
  function GetLatest(devices: seq<Device>, events: seq<WateringEvent>, deviceId: string): (r: ApiResponse<WateringEvent>)
    ensures DeviceIndex(devices, deviceId).None? ==> r == ErrorResult("Device not found")
    ensures DeviceIndex(devices, deviceId).Some? ==>
              var key := devices[DeviceIndex(devices, deviceId).value].id;
              && (r == ErrorResult("No watering events found") <==> forall x :: x in events ==> x.deviceId != key)
              && (r.success ==> r.data.Some? && r.data.value in events && r.data.value.deviceId == key)
              && (r.success ==> forall x :: x in events && x.deviceId == key ==> x.timestamp <= r.data.value.timestamp)
  {
    match DeviceIndex(devices, deviceId)
    case None => ErrorResult("Device not found")
    case Some(i) =>
      match LatestEvent(events, devices[i].id)
      case None => ErrorResult("No watering events found")
      case Some(w) => SuccessResult(w, None)
  }

  /** An event just recorded is latest unless a later one exists. */
  lemma RecordedIsLatest(events: seq<WateringEvent>, w: WateringEvent)
    requires forall x :: x in events && x.deviceId == w.deviceId ==> x.timestamp < w.timestamp
    ensures LatestEvent(events + [w], w.deviceId) == Some(w)
  {
    assert w in events + [w];
  }

  datatype TriggerRequest = TriggerRequest(deviceKey: int, durationSeconds: Option<int>)

  const DefaultWateringDuration := 10
  const ManualNotes := "Manual watering triggered from mobile app"

  /** request.DurationSeconds ?? device.Plant?.WateringDuration ?? 10. */
  function TriggerDuration(requested: Option<int>, plants: seq<Plant>, deviceKey: int): (d: int)
    ensures requested.Some? ==> d == requested.value
    ensures requested.None? && PlantIndexOfDevice(plants, deviceKey).Some? ==>
              d == plants[PlantIndexOfDevice(plants, deviceKey).value].wateringDuration
    ensures requested.None? && PlantIndexOfDevice(plants, deviceKey).None? ==> d == DefaultWateringDuration
  {
    match requested
    case Some(d) => d
    case None =>
      match PlantIndexOfDevice(plants, deviceKey)
      case Some(i) => plants[i].wateringDuration
      case None => DefaultWateringDuration
  }

  function TriggeredMessage(duration: int): string {
    "Manual watering triggered for " + IntToString(duration) + " seconds"
  }

  /** The manual event: now, Manual trigger, successful, with the app's note. */
  function Triggered(id: int, now: Time, deviceKey: int, plantKey: Option<int>, duration: int): (w: WateringEvent)
    ensures w.id == id && w.createdAt == now && w.timestamp == now && w.deviceId == deviceKey && w.plantId == plantKey
    ensures w.triggerType == Manual && w.durationSeconds == duration && w.wasSuccessful
    ensures w.notes == Some(ManualNotes) && w.failureReason.None?
  {
    NewWateringEvent(id, now).(deviceId := deviceKey, plantId := plantKey, timestamp := now,
      triggerType := Manual, durationSeconds := duration, notes := Some(ManualNotes))
  }

  /** TriggerWateringHandler: looks the device up by key and refuses when it is offline. */
  method TriggerWatering(db: Database, req: TriggerRequest, now: Time) returns (r: ApiResponse<()>)
    requires db.Valid()
    modifies db`wateringEvents, db`nextId
    ensures db.Valid()
    ensures match DeviceIndexByKey(db.devices, req.deviceKey)
            case None => r == ErrorResult("Device not found") && db.wateringEvents == old(db.wateringEvents)
            case Some(i) =>
              if !db.devices[i].isOnline then
                r == ErrorResult("Device is offline") && db.wateringEvents == old(db.wateringEvents)
              else
                var d := TriggerDuration(req.durationSeconds, db.plants, req.deviceKey);
                var w := Triggered(old(db.nextId), now, req.deviceKey, PlantKeyOf(db.plants, req.deviceKey), d);
                db.wateringEvents == old(db.wateringEvents) + [w] && r == Done(Some(TriggeredMessage(d)))
  {
    var found := DeviceIndexByKey(db.devices, req.deviceKey);
    if found.None? {
      return ErrorResult("Device not found");
    }
    var device := db.devices[found.value];
    if !device.isOnline {
      return ErrorResult("Device is offline");
    }
    var duration := TriggerDuration(req.durationSeconds, db.plants, device.id);
    var id := db.NewId();
    var w := Triggered(id, now, device.id, PlantKeyOf(db.plants, device.id), duration);
    db.wateringEvents := db.wateringEvents + [w];
    r := Done(Some(TriggeredMessage(duration)));
  }

  /** After a successful trigger the device has a watering event, so its latest-event query succeeds. */
  method TriggerThenLatest(db: Database, req: TriggerRequest, now: Time) returns (triggered: ApiResponse<()>, latest: ApiResponse<WateringEvent>)
    requires db.Valid()
    modifies db`wateringEvents, db`nextId
    ensures triggered.success ==> latest.success && latest.data.Some? && latest.data.value.deviceId == req.deviceKey
  {
    triggered := TriggerWatering(db, req, now);
    latest := ErrorResult("Device not found");
    if triggered.success {
      var i := DeviceIndexByKey(db.devices, req.deviceKey).value;
      var ext := db.devices[i].deviceId;
      latest := GetLatest(db.devices, db.wateringEvents, ext);
      var j := DeviceIndex(db.devices, ext).value;
      assert j == i;
      assert db.wateringEvents[|db.wateringEvents| - 1].deviceId == req.deviceKey;
    }
  }
}
