/**
 * The application database: one table per entity set, held as sequences in a
 * class that the handlers update, and the unique indexes, length limits and keys
 * of the entity configurations as its invariant.
 */
module Store {
  import opened Wrappers
  import opened Entities
  import opened Sequences
  import opened Text

  /** Device.FirmwareVersion: absent, or at most 20 characters. */
  predicate FirmwareFits(firmwareVersion: Option<string>) {
    firmwareVersion.None? || |firmwareVersion.value| <= 20
  }

  /**
   * Device.DeviceId unique and at most 50 characters, DeviceName at most 200,
   * FirmwareVersion at most 20, keys distinct and issued.
   */
  predicate DevicesValid(devices: seq<Device>, nextId: int) {
    && (forall i :: 0 <= i < |devices| ==>
          && |devices[i].deviceId| <= 50 && |devices[i].deviceName| <= 200
          && FirmwareFits(devices[i].firmwareVersion) && devices[i].id < nextId)
    && (forall i, j :: 0 <= i < j < |devices| ==>
          devices[i].deviceId != devices[j].deviceId && devices[i].id != devices[j].id)
  }

  /** Plant.PlantName at most 200 characters and Plant.PlantType at most 100. */
  predicate PlantColumnsFit(p: Plant) {
    |p.plantName| <= 200 && |p.plantType| <= 100
  }

  /** Plant.DeviceId unique, so a device has at most one plant; the name and type within their columns. */
  predicate PlantsValid(plants: seq<Plant>) {
    && (forall i :: 0 <= i < |plants| ==> PlantColumnsFit(plants[i]))
    && (forall i, j :: 0 <= i < j < |plants| ==> plants[i].deviceId != plants[j].deviceId)
  }

  /** ApiToken.TokenHash unique and at most 128 characters; the device key was issued. */
  predicate TokensValid(tokens: seq<ApiToken>, nextId: int) {
    && (forall i :: 0 <= i < |tokens| ==> |tokens[i].tokenHash| <= 128 && tokens[i].deviceId < nextId)
    && (forall i, j :: 0 <= i < j < |tokens| ==> tokens[i].tokenHash != tokens[j].tokenHash)
  }

  /**
   * User.Email (and the UserName and NormalizedEmail set from it) at most 256 characters,
   * User.FirstName and User.LastName at most 100, User.TimeZone at most 50.
   */
  predicate UserColumnsFit(u: User) {
    |u.email| <= 256 && |u.firstName| <= 100 && |u.lastName| <= 100 && |u.timeZone| <= 50
  }

  /** User.Email unique; the email, names and time zone within their columns. */
  predicate UsersValid(users: seq<User>) {
    && (forall i :: 0 <= i < |users| ==> UserColumnsFit(users[i]))
    && (forall i, j :: 0 <= i < j < |users| ==> users[i].email != users[j].email)
  }

  /** The keys of the devices whose external identifier is `deviceId`. */
  function KeysOf(devices: seq<Device>, deviceId: string): set<int> {
    set d | d in devices && d.deviceId == deviceId :: d.id
  }

  /** The keys of all devices. */
  function Keys(devices: seq<Device>): set<int> {
    set d | d in devices :: d.id
  }

  /** FirstOrDefault(d => d.DeviceId == deviceId). */
  function DeviceIndex(devices: seq<Device>, deviceId: string): (r: Option<nat>)
    ensures r.Some? ==> r.value < |devices| && devices[r.value].deviceId == deviceId
    ensures r.None? <==> forall i :: 0 <= i < |devices| ==> devices[i].deviceId != deviceId
  {
    FirstIndex(devices, (d: Device) => d.deviceId == deviceId)
  }

  /** FirstOrDefault(d => d.Id == id). */
  function DeviceIndexByKey(devices: seq<Device>, id: int): (r: Option<nat>)
    ensures r.Some? ==> r.value < |devices| && devices[r.value].id == id
    ensures r.None? <==> forall i :: 0 <= i < |devices| ==> devices[i].id != id
  {
    FirstIndex(devices, (d: Device) => d.id == id)
  }

  /** The `Plant` navigation of the device with key `deviceKey`. */
  function PlantIndexOfDevice(plants: seq<Plant>, deviceKey: int): (r: Option<nat>)
    ensures r.Some? ==> r.value < |plants| && plants[r.value].deviceId == deviceKey
    ensures r.None? <==> forall i :: 0 <= i < |plants| ==> plants[i].deviceId != deviceKey
  {
    FirstIndex(plants, (p: Plant) => p.deviceId == deviceKey)
  }

  /** FirstOrDefault(p => p.Id == id) on plants. */
  function PlantIndex(plants: seq<Plant>, id: int): (r: Option<nat>)
    ensures r.Some? ==> r.value < |plants| && plants[r.value].id == id
    ensures r.None? <==> forall i :: 0 <= i < |plants| ==> plants[i].id != id
  {
    FirstIndex(plants, (p: Plant) => p.id == id)
  }

  /** FirstOrDefault(u => u.Email == email). */
  function UserIndex(users: seq<User>, email: string): (r: Option<nat>)
    ensures r.Some? ==> r.value < |users| && users[r.value].email == email
    ensures r.None? <==> forall i :: 0 <= i < |users| ==> users[i].email != email
  {
    FirstIndex(users, (u: User) => u.email == email)
  }

  /**
   * UserManager.FindByEmailAsync: the user whose normalised email (upper-cased) is
   * the normalised form of `email`.
   */
  function NormalizedUserIndex(users: seq<User>, email: string): (r: Option<nat>)
    ensures r.Some? ==> r.value < |users| && ToUpper(users[r.value].email) == ToUpper(email)
    ensures r.None? <==> forall i :: 0 <= i < |users| ==> ToUpper(users[i].email) != ToUpper(email)
    ensures r.None? ==> UserIndex(users, email).None?
  {
    FirstIndex(users, (u: User) => ToUpper(u.email) == ToUpper(email))
  }

  /** A new device row that the unique index and the length limits accept. */
  predicate DeviceFits(devices: seq<Device>, d: Device) {
    && |d.deviceId| <= 50 && |d.deviceName| <= 200 && FirmwareFits(d.firmwareVersion)
    && forall i :: 0 <= i < |devices| ==> devices[i].deviceId != d.deviceId
  }

  /** A new token row that the unique index, the length limit and the device foreign key accept. */
  predicate TokenFits(devices: seq<Device>, tokens: seq<ApiToken>, t: ApiToken) {
    && |t.tokenHash| <= 128
    && t.deviceId in Keys(devices)
    && forall i :: 0 <= i < |tokens| ==> tokens[i].tokenHash != t.tokenHash
  }

  /** A new plant row that the length limits and the unique index on its device accept. */
  predicate PlantFits(plants: seq<Plant>, p: Plant) {
    PlantColumnsFit(p) && forall i :: 0 <= i < |plants| ==> plants[i].deviceId != p.deviceId
  }

  lemma AddDevice(devices: seq<Device>, d: Device, nextId: int)
    requires DevicesValid(devices, nextId) && DeviceFits(devices, d) && d.id == nextId
    ensures DevicesValid(devices + [d], nextId + 1)
    ensures Keys(devices + [d]) == Keys(devices) + {d.id}
    ensures DeviceIndex(devices + [d], d.deviceId) == Some(|devices|)
  {
    var ds := devices + [d];
    assert forall x :: x in ds <==> x in devices || x == d;
    assert ds[|devices|] == d;
  }

  /** With identifiers unique, a row rewritten under its own identifier is still the one found by it. */
  lemma IndexAfterUpdate(devices: seq<Device>, nextId: int, i: nat, d: Device)
    requires DevicesValid(devices, nextId) && i < |devices| && d.deviceId == devices[i].deviceId
    ensures DeviceIndex(devices[i := d], d.deviceId) == Some(i)
  {
    var ds := devices[i := d];
    assert ds[i].deviceId == d.deviceId;
    var k := DeviceIndex(ds, d.deviceId).value;
    assert ds[k].deviceId == devices[i].deviceId;
  }

  /** Rewriting a device's other fields keeps the table valid and its keys. */
  lemma UpdateDevice(devices: seq<Device>, i: nat, d: Device, nextId: int)
    requires DevicesValid(devices, nextId) && i < |devices|
    requires d.id == devices[i].id && d.deviceId == devices[i].deviceId && |d.deviceName| <= 200 && FirmwareFits(d.firmwareVersion)
    ensures DevicesValid(devices[i := d], nextId)
    ensures Keys(devices[i := d]) == Keys(devices)
    ensures forall s :: KeysOf(devices[i := d], s) == KeysOf(devices, s)
  {
    var ds := devices[i := d];
    forall x | x in Keys(ds) ensures x in Keys(devices) {
      var j :| 0 <= j < |ds| && ds[j].id == x;
      assert devices[j].id == x;
    }
    forall x | x in Keys(devices) ensures x in Keys(ds) {
      var j :| 0 <= j < |devices| && devices[j].id == x;
      assert ds[j].id == x;
    }
    forall s ensures KeysOf(ds, s) == KeysOf(devices, s) {
      forall x | x in KeysOf(ds, s) ensures x in KeysOf(devices, s) {
        var j :| 0 <= j < |ds| && ds[j].deviceId == s && ds[j].id == x;
        assert devices[j].id == x && devices[j].deviceId == s;
      }
      forall x | x in KeysOf(devices, s) ensures x in KeysOf(ds, s) {
        var j :| 0 <= j < |devices| && devices[j].deviceId == s && devices[j].id == x;
        assert ds[j].id == x && ds[j].deviceId == s;
      }
    }
  }

  /** In a valid table, the device found by external identifier is the only one with its key set. */
  lemma KeysOfFound(devices: seq<Device>, nextId: int, deviceId: string, i: nat)
    requires DevicesValid(devices, nextId) && DeviceIndex(devices, deviceId) == Some(i)
    ensures KeysOf(devices, deviceId) == {devices[i].id}
    ensures DeviceIndexByKey(devices, devices[i].id) == Some(i)
  {
    forall x | x in KeysOf(devices, deviceId) ensures x == devices[i].id {
      var j :| 0 <= j < |devices| && devices[j].deviceId == deviceId && devices[j].id == x;
      assert j == i;
    }
    assert devices[i] in devices;
  }

  class Database {
    var devices: seq<Device>
    var plants: seq<Plant>
    var readings: seq<SensorReading>
    var wateringEvents: seq<WateringEvent>
    var alerts: seq<DeviceAlert>
    var tokens: seq<ApiToken>
    var commands: seq<DeviceCommand>
    var users: seq<User>
    /** The next key the database hands out. */
    var nextId: int

    /** The constraints the database enforces on every committed state. */
    ghost predicate Valid()
      reads this
    {
      DevicesValid(devices, nextId) && PlantsValid(plants) && TokensValid(tokens, nextId) && UsersValid(users)
    }

    constructor ()
      ensures Valid() && nextId == 1
      ensures devices == [] && plants == [] && readings == [] && wateringEvents == []
      ensures alerts == [] && tokens == [] && commands == [] && users == []
    {
      devices, plants, readings, wateringEvents := [], [], [], [];
      alerts, tokens, commands, users := [], [], [], [];
      nextId := 1;
    }

    /** The key of the next row inserted. */
    method NewId() returns (id: int)
      modifies this`nextId
      ensures id == old(nextId) && nextId == old(nextId) + 1
    {
      id := nextId;
      nextId := nextId + 1;
    }

    /** Add a device row under the next key and SaveChanges: the row is kept only if the constraints accept it. */
    method InsertDevice(d: Device) returns (saved: bool)
      requires Valid() && d.id == nextId
      modifies this`devices, this`nextId
      ensures Valid() && nextId == old(nextId) + 1
      ensures saved == DeviceFits(old(devices), d)
      ensures devices == if saved then old(devices) + [d] else old(devices)
    {
      saved := DeviceFits(devices, d);
      if saved {
        AddDevice(devices, d, nextId);
        devices := devices + [d];
      }
      nextId := nextId + 1;
    }
  }
}
