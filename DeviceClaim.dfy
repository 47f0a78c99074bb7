/**
 * ClaimDeviceCommandHandler: a user claims a device by its identifier, naming the
 * plant it watches; the plant's moisture thresholds and watering duration come from
 * tables keyed by the plant type.
 */
module DeviceClaim {
  import opened Wrappers
  import opened Faults
  import opened Entities
  import opened Store
  import opened Text
  import opened ApiResponses

  datatype ClaimRequest = ClaimRequest(
    deviceId: string, userId: int, plantName: string, plantType: string, location: Option<string>)

  datatype ClaimResponse = ClaimResponse(deviceId: string, plantId: int, plantName: string, message: string)

  const ClaimedMessage := "Device claimed successfully! You can now set up WiFi connection."

  /** GetThresholdForPlantType: (Low, High) by the lower-cased type, (30, 70) for any other type. */
  function Thresholds(plantType: string): (t: (int, int))
    ensures t.0 < t.1
    ensures 15 <= t.0 <= 40 && 50 <= t.1 <= 80
    ensures ToLower(plantType) !in {"snake plant", "sansevieria", "peace lily", "spathiphyllum", "money plant",
                                    "pothos", "aloe vera", "fiddle leaf fig", "spider plant", "monstera"}
            ==> t == (30, 70)
  {
    var key := ToLower(plantType);
    if key == "snake plant" || key == "sansevieria" then (20, 60)
    else if key == "peace lily" || key == "spathiphyllum" then (40, 80)
    else if key == "money plant" || key == "pothos" then (30, 70)
    else if key == "aloe vera" then (15, 50)
    else if key == "fiddle leaf fig" then (30, 75)
    else if key == "spider plant" then (25, 65)
    else if key == "monstera" then (35, 75)
    else (30, 70)
  }

  /** GetWateringDurationForPlantType: 5 for succulents, 12 for tropical plants, 8 otherwise. */
  function WateringDurationFor(plantType: string): (d: int)
    ensures d in {5, 8, 12}
    ensures d == 5 <==> ToLower(plantType) in {"snake plant", "aloe vera"}
    ensures d == 12 <==> ToLower(plantType) in {"peace lily", "monstera"}
  {
    var key := ToLower(plantType);
    if key == "snake plant" || key == "aloe vera" then 5
    else if key == "peace lily" || key == "monstera" then 12
    else 8
  }

  /** Both lookups ignore the case of the plant type. */
  lemma LookupsIgnoreCase(plantType: string)
    ensures Thresholds(ToLower(plantType)) == Thresholds(plantType)
    ensures WateringDurationFor(ToLower(plantType)) == WateringDurationFor(plantType)
  {
    ToLowerIdempotent(plantType);
  }

  lemma SnakePlantAnyCase()
    ensures Thresholds("Snake Plant") == (20, 60) && WateringDurationFor("SNAKE PLANT") == 5
  {
    assert ToLower("Snake Plant") == "snake plant";
    assert ToLower("SNAKE PLANT") == "snake plant";
  }

  /** Handle as written: `device.UserId != null` holds for every device, so every found device counts as claimed. */
  function ClaimDevice(devices: seq<Device>, req: ClaimRequest): (r: ApiResponse<ClaimResponse>)
    ensures !r.success
    ensures DeviceIndex(devices, req.deviceId).None? ==> r == ErrorResult("Device not found. Please check the Device ID.")
    ensures DeviceIndex(devices, req.deviceId).Some? ==> r == ErrorResult("Device is already claimed by another user.")
  {
    match DeviceIndex(devices, req.deviceId)
    case None => ErrorResult("Device not found. Please check the Device ID.")
    case Some(_) => ErrorResult("Device is already claimed by another user.")
  }

  /**
   * Every stored device is refused, whatever its UserId, the factory-provisioned ones
   * (owned by user 1) included: the claim branch cannot be reached.
   */
  lemma FoundDeviceRefused(devices: seq<Device>, req: ClaimRequest, i: nat)
    requires i < |devices| && devices[i].deviceId == req.deviceId
    ensures ClaimDevice(devices, req) == ErrorResult("Device is already claimed by another user.")
  {
  }

  /** The device fields the claim branch sets. */
  function Claimed(d: Device, req: ClaimRequest, now: Time): (c: Device)
    ensures c.userId == req.userId && c.deviceName == req.plantName + " Monitor" && c.status == Active
    ensures c.location == req.location && c.updatedAt == Some(now)
    ensures c.(userId := d.userId, deviceName := d.deviceName, status := d.status, location := d.location,
               updatedAt := d.updatedAt) == d
  {
    d.(userId := req.userId, deviceName := req.plantName + " Monitor", status := Active,
       location := req.location, updatedAt := Some(now))
  }

  /** The plant the claim branch adds: the looked-up thresholds and duration, automatic watering. */
  function ClaimedPlant(id: int, now: Time, deviceKey: int, req: ClaimRequest): (p: Plant)
    ensures p.id == id && p.deviceId == deviceKey && p.plantName == req.plantName && p.plantType == req.plantType
    ensures (p.moistureThresholdLow, p.moistureThresholdHigh) == Thresholds(req.plantType)
    ensures p.wateringDuration == WateringDurationFor(req.plantType) && p.autoWateringEnabled
  {
    var t := Thresholds(req.plantType);
    NewPlant(id, now).(deviceId := deviceKey, plantName := req.plantName, plantType := req.plantType,
      moistureThresholdLow := t.0, moistureThresholdHigh := t.1,
      wateringDuration := WateringDurationFor(req.plantType), autoWateringEnabled := true)
  }

  /**
   * A device nobody has claimed. The source has no such value: UserId is a
   * non-nullable foreign key to Users. Reading "unowned" as the default 0 of a long
   * is this model's guess at what the guard means.
   */
  predicate Unowned(d: Device) {
    d.userId == 0
  }

  /**
   * Handle with the ownership test the guard evidently means: an unowned device is
   * claimed, its plant added, both in one SaveChanges; an owned device is refused.
   */
  method ClaimUnowned(db: Database, req: ClaimRequest, now: Time) returns (r: ApiResponse<ClaimResponse>)
    requires db.Valid()
    modifies db`devices, db`plants, db`nextId
    ensures db.Valid()
    ensures match DeviceIndex(old(db.devices), req.deviceId)
            case None =>
              r == ErrorResult("Device not found. Please check the Device ID.")
              && db.devices == old(db.devices) && db.plants == old(db.plants)
            case Some(i) =>
              if !Unowned(old(db.devices)[i]) then
                r == ErrorResult("Device is already claimed by another user.")
                && db.devices == old(db.devices) && db.plants == old(db.plants)
              else
                var d := Claimed(old(db.devices)[i], req, now);
                var p := ClaimedPlant(old(db.nextId), now, d.id, req);
                if |d.deviceName| <= 200 && PlantFits(old(db.plants), p) then
                  && db.devices == old(db.devices)[i := d] && db.plants == old(db.plants) + [p]
                  && r == SuccessResult(ClaimResponse(d.deviceId, p.id, p.plantName, ClaimedMessage), None)
                else
                  && r == ErrorResult("An error occurred: " + DbUpdate.Message())
                  && db.devices == old(db.devices) && db.plants == old(db.plants)
  {
    var found := DeviceIndex(db.devices, req.deviceId);
    if found.None? {
      return ErrorResult("Device not found. Please check the Device ID.");
    }
    var i := found.value;
    if !Unowned(db.devices[i]) {
      return ErrorResult("Device is already claimed by another user.");
    }
    var d := Claimed(db.devices[i], req, now);
    var id := db.NewId();
    var p := ClaimedPlant(id, now, d.id, req);
    if |d.deviceName| <= 200 && PlantFits(db.plants, p) {
      UpdateDevice(db.devices, i, d, db.nextId);
      db.devices := db.devices[i := d];
      db.plants := db.plants + [p];
      r := SuccessResult(ClaimResponse(d.deviceId, p.id, p.plantName, ClaimedMessage), None);
    } else {
      r := ErrorResult("An error occurred: " + DbUpdate.Message());
    }
  }

  /** A claim holds: once a device is claimed for a user, claiming it again is refused. */
  method ClaimTwice(db: Database, req: ClaimRequest, again: ClaimRequest, now: Time)
    returns (first: ApiResponse<ClaimResponse>, second: ApiResponse<ClaimResponse>)
    requires db.Valid() && req.userId != 0 && again.deviceId == req.deviceId
    modifies db`devices, db`plants, db`nextId
    ensures db.Valid()
    ensures first.success ==> second == ErrorResult("Device is already claimed by another user.")
  {
    first := ClaimUnowned(db, req, now);
    if first.success {
      var i := DeviceIndex(old(db.devices), req.deviceId).value;
      var d := Claimed(old(db.devices)[i], req, now);
      assert db.devices == old(db.devices)[i := d];
      IndexAfterUpdate(old(db.devices), old(db.nextId), i, d);
      assert !Unowned(db.devices[i]);
    }
    second := ClaimUnowned(db, again, now);
  }
}
