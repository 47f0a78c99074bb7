/**
 * The plant handlers: creating the one plant of a device, the lookups, the partial
 * update and deletion.
 */
module PlantHandlers {
  import opened Wrappers
  import opened Entities
  import opened Store
  import opened ApiResponses

  datatype CreateRequest = CreateRequest(
    deviceKey: int, plantName: string, plantType: string, plantSpecies: Option<string>, ageWeeks: Option<int>,
    moistureThresholdLow: int, moistureThresholdHigh: int, wateringDuration: int, autoWateringEnabled: bool,
    notes: Option<string>)

  /** The plant CreatePlantHandler builds: every field of the request, and no image. */
  function CreatedPlant(id: int, now: Time, req: CreateRequest): (p: Plant)
    ensures p.id == id && p.createdAt == now && p.updatedAt.None? && p.deviceId == req.deviceKey
    ensures p.plantName == req.plantName && p.plantType == req.plantType && p.plantSpecies == req.plantSpecies
    ensures p.ageWeeks == req.ageWeeks && p.notes == req.notes && p.plantImageUrl.None?
    ensures p.moistureThresholdLow == req.moistureThresholdLow && p.moistureThresholdHigh == req.moistureThresholdHigh
    ensures p.wateringDuration == req.wateringDuration && p.autoWateringEnabled == req.autoWateringEnabled
  {
    NewPlant(id, now).(deviceId := req.deviceKey, plantName := req.plantName, plantType := req.plantType,
      plantSpecies := req.plantSpecies, ageWeeks := req.ageWeeks,
      moistureThresholdLow := req.moistureThresholdLow, moistureThresholdHigh := req.moistureThresholdHigh,
      wateringDuration := req.wateringDuration, autoWateringEnabled := req.autoWateringEnabled, notes := req.notes)
  }

  const CreatedMessage := "Plant created successfully"
  const AlreadyPlanted := "Device already has a plant configured"

  /**
   * CreatePlantHandler. The device's loaded plant is checked first, so the unique
   * index on the plant's device never rejects the insert; a name or type too long for
   * its column does, and the caught exception becomes "Internal server error".
   */
  method Create(db: Database, req: CreateRequest, now: Time) returns (r: ApiResponse<Plant>)
    requires db.Valid()
    modifies db`plants, db`nextId
    ensures db.Valid()
    ensures DeviceIndexByKey(db.devices, req.deviceKey).None? ==>
              r == ErrorResult("Device not found") && db.plants == old(db.plants)
    ensures DeviceIndexByKey(db.devices, req.deviceKey).Some? && PlantIndexOfDevice(old(db.plants), req.deviceKey).Some? ==>
              r == ErrorResult(AlreadyPlanted) && db.plants == old(db.plants)
    ensures DeviceIndexByKey(db.devices, req.deviceKey).Some? && PlantIndexOfDevice(old(db.plants), req.deviceKey).None? ==>
              var p := CreatedPlant(old(db.nextId), now, req);
              if PlantColumnsFit(p) then db.plants == old(db.plants) + [p] && r == SuccessResult(p, Some(CreatedMessage))
              else db.plants == old(db.plants) && r == ErrorResult(InternalServerError)
  {
    if DeviceIndexByKey(db.devices, req.deviceKey).None? {
      return ErrorResult("Device not found");
    }
    if PlantIndexOfDevice(db.plants, req.deviceKey).Some? {
      return ErrorResult(AlreadyPlanted);
    }
    var id := db.NewId();
    var p := CreatedPlant(id, now, req);
    if !PlantColumnsFit(p) {
      return ErrorResult(InternalServerError);
    }
    assert PlantFits(db.plants, p);
    AddPlant(db.plants, p);
    db.plants := db.plants + [p];
    r := SuccessResult(p, Some(CreatedMessage));
  }

  /** A plant that fits keeps a device to at most one plant, and is the one its device then loads. */
  lemma AddPlant(plants: seq<Plant>, p: Plant)
    requires PlantsValid(plants) && PlantFits(plants, p)
    ensures PlantsValid(plants + [p])
    ensures PlantIndexOfDevice(plants + [p], p.deviceId) == Some(|plants|)
  {
    assert (plants + [p])[|plants|] == p;
  }

  /** GetPlantByDeviceIdHandler. */
  function GetByDevice(plants: seq<Plant>, deviceKey: int): (r: ApiResponse<Plant>)
    ensures r.success <==> exists i :: 0 <= i < |plants| && plants[i].deviceId == deviceKey
    ensures !r.success ==> r == ErrorResult("Plant not found")
    ensures r.success ==> r.data.Some? && r.data.value in plants && r.data.value.deviceId == deviceKey
  {
    match PlantIndexOfDevice(plants, deviceKey)
    case None => ErrorResult("Plant not found")
    case Some(i) => SuccessResult(plants[i], None)
  }

  /** GetPlantByIdHandler. */
  function GetById(plants: seq<Plant>, id: int): (r: ApiResponse<Plant>)
    ensures r.success <==> exists i :: 0 <= i < |plants| && plants[i].id == id
    ensures !r.success ==> r == ErrorResult("Plant not found")
    ensures r.success ==> r.data.Some? && r.data.value in plants && r.data.value.id == id
  {
    match PlantIndex(plants, id)
    case None => ErrorResult("Plant not found")
    case Some(i) => SuccessResult(plants[i], None)
  }

  /** After a plant is created its device loads it, and a second plant for the device is refused. */
  lemma CreatedPlantIsLoaded(plants: seq<Plant>, p: Plant)
    requires PlantsValid(plants) && PlantFits(plants, p)
    ensures GetByDevice(plants + [p], p.deviceId) == SuccessResult(p, None)
    ensures PlantIndexOfDevice(plants + [p], p.deviceId).Some?
  {
    AddPlant(plants, p);
  }

  datatype UpdateRequest = UpdateRequest(
    id: int, plantName: Option<string>, plantType: Option<string>, moistureThresholdLow: Option<int>,
    moistureThresholdHigh: Option<int>, wateringDuration: Option<int>, autoWateringEnabled: Option<bool>,
    notes: Option<string>)

  /** `!string.IsNullOrEmpty(value)`. */
  predicate Given(value: Option<string>) {
    value.Some? && |value.value| > 0
  }

  /**
   * The plant after UpdatePlantHandler's assignments: a non-empty string or a present
   * value replaces the old one, and UpdatedAt is now; nothing else changes.
   */
  function Updated(p: Plant, req: UpdateRequest, now: Time): (r: Plant)
    ensures r.plantName == (if Given(req.plantName) then req.plantName.value else p.plantName)
    ensures r.plantType == (if Given(req.plantType) then req.plantType.value else p.plantType)
    ensures r.moistureThresholdLow == req.moistureThresholdLow.GetOr(p.moistureThresholdLow)
    ensures r.moistureThresholdHigh == req.moistureThresholdHigh.GetOr(p.moistureThresholdHigh)
    ensures r.wateringDuration == req.wateringDuration.GetOr(p.wateringDuration)
    ensures r.autoWateringEnabled == req.autoWateringEnabled.GetOr(p.autoWateringEnabled)
    ensures r.notes == (if Given(req.notes) then req.notes else p.notes)
    ensures r.updatedAt == Some(now)
    ensures r.(plantName := p.plantName, plantType := p.plantType, moistureThresholdLow := p.moistureThresholdLow,
               moistureThresholdHigh := p.moistureThresholdHigh, wateringDuration := p.wateringDuration,
               autoWateringEnabled := p.autoWateringEnabled, notes := p.notes, updatedAt := p.updatedAt) == p
  {
    var named := if Given(req.plantName) then p.(plantName := req.plantName.value) else p;
    var typed := if Given(req.plantType) then named.(plantType := req.plantType.value) else named;
    var noted := if Given(req.notes) then typed.(notes := req.notes) else typed;
    noted.(moistureThresholdLow := req.moistureThresholdLow.GetOr(p.moistureThresholdLow),
           moistureThresholdHigh := req.moistureThresholdHigh.GetOr(p.moistureThresholdHigh),
           wateringDuration := req.wateringDuration.GetOr(p.wateringDuration),
           autoWateringEnabled := req.autoWateringEnabled.GetOr(p.autoWateringEnabled),
           updatedAt := Some(now))
  }

  /** Repeating an update at the same moment changes nothing more. */
  lemma UpdateIdempotent(p: Plant, req: UpdateRequest, now: Time)
    ensures Updated(Updated(p, req, now), req, now) == Updated(p, req, now)
  {
    var once := Updated(p, req, now);
    var twice := Updated(once, req, now);
    assert twice.(plantName := once.plantName, plantType := once.plantType, moistureThresholdLow := once.moistureThresholdLow,
                  moistureThresholdHigh := once.moistureThresholdHigh, wateringDuration := once.wateringDuration,
                  autoWateringEnabled := once.autoWateringEnabled, notes := once.notes, updatedAt := once.updatedAt) == once;
  }

  /**
   * The update never moves a plant to another device, so one plant per device still
   * holds; the columns hold when the updated row fits them.
   */
  lemma UpdateKeepsPlantsValid(plants: seq<Plant>, i: nat, req: UpdateRequest, now: Time)
    requires PlantsValid(plants) && i < |plants| && PlantColumnsFit(Updated(plants[i], req, now))
    ensures PlantsValid(plants[i := Updated(plants[i], req, now)])
  {
    var ps := plants[i := Updated(plants[i], req, now)];
    assert forall j :: 0 <= j < |ps| ==> ps[j].deviceId == plants[j].deviceId;
  }

  const UpdatedMessage := "Plant updated successfully"

  /**
   * UpdatePlantHandler. No validator guards it, so a name or type too long for its
   * column reaches SaveChanges, which refuses it: "Internal server error", nothing saved.
   */
  method Update(db: Database, req: UpdateRequest, now: Time) returns (r: ApiResponse<Plant>)
    requires db.Valid()
    modifies db`plants
    ensures db.Valid()
    ensures match PlantIndex(old(db.plants), req.id)
            case None => r == ErrorResult("Plant not found") && db.plants == old(db.plants)
            case Some(i) =>
              var u := Updated(old(db.plants)[i], req, now);
              if PlantColumnsFit(u) then db.plants == old(db.plants)[i := u] && r == SuccessResult(u, Some(UpdatedMessage))
              else db.plants == old(db.plants) && r == ErrorResult(InternalServerError)
  {
    var found := PlantIndex(db.plants, req.id);
    if found.None? {
      return ErrorResult("Plant not found");
    }
    var i := found.value;
    var u := Updated(db.plants[i], req, now);
    if !PlantColumnsFit(u) {
      return ErrorResult(InternalServerError);
    }
    UpdateKeepsPlantsValid(db.plants, i, req, now);
    db.plants := db.plants[i := u];
    r := SuccessResult(u, Some(UpdatedMessage));
  }

  /** Watering events reference their plant with a restricting foreign key. */
  predicate Referenced(events: seq<WateringEvent>, plantKey: int) {
    exists k :: 0 <= k < |events| && events[k].plantId == Some(plantKey)
  }

  function Without(plants: seq<Plant>, i: nat): (r: seq<Plant>)
    requires i < |plants|
    ensures |r| == |plants| - 1
    ensures multiset(r) == multiset(plants) - multiset{plants[i]}
  {
    assert plants == plants[..i] + [plants[i]] + plants[i + 1..];
    plants[..i] + plants[i + 1..]
  }

  const DeletedMessage := "Plant deleted successfully"

  /**
   * DeletePlantHandler. A plant that a watering event still references cannot be
   * removed: the database refuses the delete and the handler answers with an error.
   */
  method Delete(db: Database, id: int) returns (r: ApiResponse<()>)
    requires db.Valid()
    modifies db`plants
    ensures db.Valid()
    ensures match PlantIndex(old(db.plants), id)
            case None => r == ErrorResult("Plant not found") && db.plants == old(db.plants)
            case Some(i) =>
              if Referenced(db.wateringEvents, old(db.plants)[i].id) then
                r == ErrorResult(InternalServerError) && db.plants == old(db.plants)
              else
                db.plants == Without(old(db.plants), i) && r == Done(Some(DeletedMessage))
  {
    var found := PlantIndex(db.plants, id);
    if found.None? {
      return ErrorResult("Plant not found");
    }
    var i := found.value;
    if Referenced(db.wateringEvents, db.plants[i].id) {
      return ErrorResult(InternalServerError);
    }
    DeleteFreesDevice(db.plants, i);
    db.plants := Without(db.plants, i);
    r := Done(Some(DeletedMessage));
  }

  /** Deleting a device's plant leaves the device without one, so a new plant may be created for it. */
  lemma DeleteFreesDevice(plants: seq<Plant>, i: nat)
    requires PlantsValid(plants) && i < |plants|
    ensures PlantsValid(Without(plants, i))
    ensures PlantIndexOfDevice(Without(plants, i), plants[i].deviceId).None?
  {
    var r := Without(plants, i);
    assert forall j :: 0 <= j < |r| ==> r[j] == if j < i then plants[j] else plants[j + 1];
  }
}
