/**
 * ManualWateringCommandHandler: queues a high-priority ManualWatering command for
 * the device of a plant, provided that device is online.
 */
module ManualWateringHandler {
  import opened Wrappers
  import opened Entities
  import opened Sequences
  import opened Store
  import opened Text
  import opened ApiResponses
  import opened CommandQueue

  datatype ManualWateringRequest = ManualWateringRequest(plantId: int, durationSeconds: Option<int>)

  /** The priority the handler queues with (DeviceCommand documents 3 as High). */
  const ManualPriority := 3

  /** JsonSerializer.Serialize(new { durationSeconds = duration }). */
  function WateringParameters(duration: int): string {
    "{\"durationSeconds\":" + IntToString(duration) + "}"
  }

  function SentMessage(duration: int, commandId: int): string {
    "Manual watering command sent. Duration: " + IntToString(duration) + " seconds. Command ID: " + IntToString(commandId)
  }

  /**
   * The plant the handler loads, with its device: the first plant with that key whose
   * device row exists, since the required navigation is loaded with an inner join.
   */
  function Target(plants: seq<Plant>, devices: seq<Device>, plantId: int): (r: Option<(nat, nat)>)
    ensures r.Some? ==>
              && r.value.0 < |plants| && r.value.1 < |devices|
              && plants[r.value.0].id == plantId && devices[r.value.1].id == plants[r.value.0].deviceId
    ensures r.None? <==> forall i :: 0 <= i < |plants| && plants[i].id == plantId ==> plants[i].deviceId !in Keys(devices)
  {
    match FirstIndex(plants, (p: Plant) => p.id == plantId && p.deviceId in Keys(devices))
    case None => None
    case Some(i) =>
      var k := DeviceIndexByKey(devices, plants[i].deviceId);
      assert k.Some? by {
        var d :| d in devices && d.id == plants[i].deviceId;
      }
      Some((i, k.value))
  }

  /** The duration the command carries: the request's, else the plant's own. */
  function Duration(req: ManualWateringRequest, plant: Plant): (d: int)
    ensures req.durationSeconds.Some? ==> d == req.durationSeconds.value
    ensures req.durationSeconds.None? ==> d == plant.wateringDuration
  {
    req.durationSeconds.GetOr(plant.wateringDuration)
  }

  /** Handle: one command when the plant exists and its device is online, none otherwise. */
  method Handle(db: Database, req: ManualWateringRequest, now: Time) returns (r: ApiResponse<string>)
    requires db.Valid()
    modifies db`commands, db`nextId
    ensures db.Valid()
    ensures match Target(db.plants, db.devices, req.plantId)
            case None =>
              r == ErrorResult("Plant not found") && db.commands == old(db.commands)
            case Some((i, k)) =>
              if !db.devices[k].isOnline then
                r == ErrorResult("Device is offline. Cannot send watering command.") && db.commands == old(db.commands)
              else
                var duration := Duration(req, db.plants[i]);
                && |db.commands| == |old(db.commands)| + 1 && db.commands[..|old(db.commands)|] == old(db.commands)
                && var c := db.commands[|old(db.commands)|];
                   && c.id == old(db.nextId) && c.deviceId == db.plants[i].deviceId
                   && c.commandType == ManualWatering && c.parameters == WateringParameters(duration)
                   && c.status == Pending && c.priority == ManualPriority
                   && c.createdAt == now && c.expiresAt == now + 5 * Minute
                   && r == SuccessResult(SentMessage(duration, c.id), None)
  {
    var target := Target(db.plants, db.devices, req.plantId);
    if target.None? {
      return ErrorResult("Plant not found");
    }
    var (i, k) := target.value;
    if !db.devices[k].isOnline {
      return ErrorResult("Device is offline. Cannot send watering command.");
    }
    var duration := Duration(req, db.plants[i]);
    var c := CreateCommand(db, db.plants[i].deviceId, ManualWatering, WateringParameters(duration), ManualPriority, now);
    r := SuccessResult(SentMessage(duration, c.id), None);
  }

  /** The command queued for a plant's device is handed to that device's polls for five minutes. */
  lemma QueuedCommandIsPollable(devices: seq<Device>, nextId: int, k: nat, c: DeviceCommand, row: nat, now: Time, later: Time)
    requires DevicesValid(devices, nextId) && k < |devices| && c.deviceId == devices[k].id
    requires c.status == Pending && c.expiresAt == now + 5 * Minute && now <= later < now + 5 * Minute
    ensures Pollable(devices, devices[k].deviceId, later, (row, c))
  {
    assert devices[k] in devices;
  }
}
