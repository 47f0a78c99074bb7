/**
 * The device handlers: registration of a device for a user with its initial
 * token, the user's device list, the lookups, the partial update and the status
 * update.
 */
module DeviceHandlers {
  import opened Wrappers
  import opened Faults
  import opened Entities
  import opened Sequences
  import opened Text
  import opened Store
  import opened Base64
  import opened Crypto
  import opened ApiResponses
  import opened TokenService
  import opened Provisioning

  datatype RegisterRequest = RegisterRequest(deviceId: string, userEmail: string, deviceName: Option<string>)

  /** The fallback name as the handler writes it: a plain literal, without interpolation. */
  const LiteralDeviceName := "Plant Monitor {request.DeviceId[^4..]}"

  /** The name RegisterDeviceHandler gives the device as written. */
  function AsWrittenName(req: RegisterRequest): (r: Result<string, Fault>)
    ensures r.Success?
    ensures req.deviceName.Some? ==> r.value == req.deviceName.value
    ensures req.deviceName.None? ==> r.value == LiteralDeviceName
  {
    Success(req.deviceName.GetOr(LiteralDeviceName))
  }

  /** Two devices registered without a name get the same name, whatever their identifiers. */
  lemma AsWrittenNameIgnoresDeviceId()
    ensures AsWrittenName(RegisterRequest("PM-00AB12", "a@example.com", None))
         == AsWrittenName(RegisterRequest("PM-00CD34", "a@example.com", None))
    ensures !EndsWith(AsWrittenName(RegisterRequest("PM-00AB12", "a@example.com", None)).value, "AB12")
  {
    assert LiteralDeviceName[|LiteralDeviceName| - 4..] == "..]}";
  }

  predicate EndsWith(s: string, suffix: string) {
    |suffix| <= |s| && s[|s| - |suffix|..] == suffix
  }

  /**
   * The evidently intended name, the interpolation provisioning performs: "Plant
   * Monitor " and the last four characters, which throws for a shorter identifier.
   */
  function IntendedName(req: RegisterRequest): (r: Result<string, Fault>)
    ensures req.deviceName.Some? ==> r == Success(req.deviceName.value)
    ensures req.deviceName.None? ==> (r.Failure? <==> |req.deviceId| < 4)
    ensures req.deviceName.None? && r.Success? ==> EndsWith(r.value, req.deviceId[|req.deviceId| - 4..])
  {
    match req.deviceName
    case Some(n) => Success(n)
    case None => DefaultDeviceName(req.deviceId)
  }

  /** With the intended name, devices whose identifiers differ in their last four characters get different names. */
  lemma IntendedNamesDistinguishDevices(a: RegisterRequest, b: RegisterRequest)
    requires a.deviceName.None? && b.deviceName.None? && |a.deviceId| >= 4 && |b.deviceId| >= 4
    requires a.deviceId[|a.deviceId| - 4..] != b.deviceId[|b.deviceId| - 4..]
    ensures IntendedName(a).value != IntendedName(b).value
  {
    var na, nb := IntendedName(a).value, IntendedName(b).value;
    assert na[|na| - 4..] == a.deviceId[|a.deviceId| - 4..];
    assert nb[|nb| - 4..] == b.deviceId[|b.deviceId| - 4..];
  }

  /** The device row registration creates: the user's, active, online, an ESP32 monitor seen now. */
  function RegisteredDevice(id: int, now: Time, deviceId: string, userKey: int, name: string): (d: Device)
    ensures d.id == id && d.createdAt == now && d.deviceId == deviceId && d.userId == userKey && d.deviceName == name
    ensures d.status == Active && d.isOnline && d.deviceType == ESP32PlantMonitor && d.lastSeen == Some(now)
  {
    NewDevice(id, now).(deviceId := deviceId, userId := userKey, deviceName := name,
      deviceType := ESP32PlantMonitor, status := Active, isOnline := true, lastSeen := Some(now))
  }

  const InitialTokenName := "Initial Token"
  const RegisteredMessage := "Device registered successfully"

  /** The token row of the initial token. */
  function InitialToken(id: int, now: Time, deviceKey: int, p: Primitives, randomBytes: seq<byte>): ApiToken {
    IssuedToken(id, now, deviceKey, ComputeHash(p, Encode(randomBytes)), Some(InitialTokenName))
  }

  /**
   * The two saves once the device row is built: the device, then its initial token.
   * A token the database refuses leaves the device saved and the answer an error.
   */
  function SaveRegistered(t: Tables, d: Device, p: Primitives, randomBytes: seq<byte>, now: Time): (o: (ApiResponse<Device>, Tables))
    requires TablesValid(t) && d.id == t.nextId
    ensures TablesValid(o.1) && o.1.nextId >= t.nextId && WellFormed(o.0)
    ensures o.0.success <==> DeviceFits(t.devices, d) && TokenFits(t.devices + [d], t.tokens, InitialToken(t.nextId + 1, now, d.id, p, randomBytes))
    ensures o.0.success ==>
              && o.0 == SuccessResult(d, Some(RegisteredMessage))
              && o.1 == Tables(t.devices + [d], t.tokens + [InitialToken(t.nextId + 1, now, d.id, p, randomBytes)], t.nextId + 2)
    ensures !o.0.success ==> o.0 == ErrorResult(InternalServerError) && o.1.tokens == t.tokens
  {
    if !DeviceFits(t.devices, d) then (ErrorResult(InternalServerError), t.(nextId := t.nextId + 1))
    else
      AddDevice(t.devices, d, t.nextId);
      var tok := InitialToken(t.nextId + 1, now, d.id, p, randomBytes);
      if !TokenFits(t.devices + [d], t.tokens, tok) then (ErrorResult(InternalServerError), Tables(t.devices + [d], t.tokens, t.nextId + 2))
      else (SuccessResult(d, Some(RegisteredMessage)), Tables(t.devices + [d], t.tokens + [tok], t.nextId + 2))
  }

  /** Tables and an answer that follow SaveRegistered's three outcomes are its result. */
  lemma SaveRegisteredOutcome(t: Tables, d: Device, p: Primitives, randomBytes: seq<byte>, now: Time,
                              r: ApiResponse<Device>, after: Tables)
    requires TablesValid(t) && d.id == t.nextId
    requires !DeviceFits(t.devices, d) ==> r == ErrorResult(InternalServerError) && after == t.(nextId := t.nextId + 1)
    requires DeviceFits(t.devices, d) ==>
               && after.devices == t.devices + [d] && after.nextId == t.nextId + 2
               && var tok := InitialToken(t.nextId + 1, now, d.id, p, randomBytes);
                  if TokenFits(t.devices + [d], t.tokens, tok)
                  then r == SuccessResult(d, Some(RegisteredMessage)) && after.tokens == t.tokens + [tok]
                  else r == ErrorResult(InternalServerError) && after.tokens == t.tokens
    ensures (r, after) == SaveRegistered(t, d, p, randomBytes, now)
  {
  }

  /**
   * RegisterDeviceHandler over the device and token tables, for a given outcome of
   * the name expression.
   */
  function Registration(t: Tables, users: seq<User>, p: Primitives, req: RegisterRequest, name: Result<string, Fault>,
                        randomBytes: seq<byte>, now: Time): (o: (ApiResponse<Device>, Tables))
    requires TablesValid(t)
    ensures TablesValid(o.1) && o.1.nextId >= t.nextId && WellFormed(o.0)
    ensures DeviceIndex(t.devices, req.deviceId).Some? ==> o == (ErrorResult("Device already registered"), t)
    ensures DeviceIndex(t.devices, req.deviceId).None? && UserIndex(users, req.userEmail).None? ==>
              o == (ErrorResult("User not found"), t)
    ensures DeviceIndex(t.devices, req.deviceId).None? && UserIndex(users, req.userEmail).Some? && name.Failure? ==>
              o == (ErrorResult(InternalServerError), t)
    ensures DeviceIndex(t.devices, req.deviceId).None? && UserIndex(users, req.userEmail).Some? && name.Success? ==>
              o == SaveRegistered(t, RegisteredDevice(t.nextId, now, req.deviceId, users[UserIndex(users, req.userEmail).value].id, name.value),
                                  p, randomBytes, now)
  {
    if DeviceIndex(t.devices, req.deviceId).Some? then (ErrorResult("Device already registered"), t)
    else match UserIndex(users, req.userEmail)
      case None => (ErrorResult("User not found"), t)
      case Some(u) =>
        match name
        case Failure(_) => (ErrorResult(InternalServerError), t)
        case Success(n) => SaveRegistered(t, RegisteredDevice(t.nextId, now, req.deviceId, users[u].id, n), p, randomBytes, now)
  }

  /** A device identifier registered once is refused the second time, whoever asks. */
  lemma RegisterTwiceRefused(t: Tables, users: seq<User>, p: Primitives, req: RegisterRequest, again: RegisterRequest,
                             name: Result<string, Fault>, name2: Result<string, Fault>, randomBytes: seq<byte>, bytes2: seq<byte>, now: Time, later: Time)
    requires TablesValid(t) && again.deviceId == req.deviceId
    requires Registration(t, users, p, req, name, randomBytes, now).0.success
    ensures var t1 := Registration(t, users, p, req, name, randomBytes, now).1;
            Registration(t1, users, p, again, name2, bytes2, later) == (ErrorResult("Device already registered"), t1)
  {
    var t1 := Registration(t, users, p, req, name, randomBytes, now).1;
    assert t1.devices[|t.devices|].deviceId == req.deviceId;
  }

  /**
   * With sound hashing, registration succeeds exactly when the identifier is new and
   * at most 50 characters, the user exists, the name is at most 200 characters, and
   * no stored token has the new secret's hash.
   */
  lemma RegistrationSucceeds(t: Tables, users: seq<User>, p: Primitives, req: RegisterRequest, name: Result<string, Fault>,
                             randomBytes: seq<byte>, now: Time)
    requires TablesValid(t) && p.Sound()
    ensures Registration(t, users, p, req, name, randomBytes, now).0.success <==>
              && DeviceIndex(t.devices, req.deviceId).None? && UserIndex(users, req.userEmail).Some?
              && name.Success? && |req.deviceId| <= 50 && |name.value| <= 200
              && forall i :: 0 <= i < |t.tokens| ==> t.tokens[i].tokenHash != ComputeHash(p, Encode(randomBytes))
  {
    if DeviceIndex(t.devices, req.deviceId).None? && UserIndex(users, req.userEmail).Some? && name.Success? {
      var d := RegisteredDevice(t.nextId, now, req.deviceId, users[UserIndex(users, req.userEmail).value].id, name.value);
      assert d in t.devices + [d];
    }
  }

  /** Every registration that succeeds without a name has the same name, which contains no part of the identifier. */
  lemma RegisteredAsWrittenHasLiteralName(t: Tables, users: seq<User>, p: Primitives, req: RegisterRequest,
                                          randomBytes: seq<byte>, now: Time)
    requires TablesValid(t) && req.deviceName.None?
    requires Registration(t, users, p, req, AsWrittenName(req), randomBytes, now).0.success
    ensures Registration(t, users, p, req, AsWrittenName(req), randomBytes, now).0.data.value.deviceName == LiteralDeviceName
  {
  }

  /** The two saves of a built device row on the database. */
  method SaveRegisteredRows(db: Database, p: Primitives, d: Device, randomBytes: seq<byte>, now: Time)
    returns (r: ApiResponse<Device>)
    requires db.Valid() && |randomBytes| == 32 && d.id == db.nextId
    modifies db`devices, db`tokens, db`nextId
    ensures db.Valid()
    ensures var o := SaveRegistered(TablesOf(old(db.devices), old(db.tokens), old(db.nextId)), d, p, randomBytes, now);
            r == o.0 && db.devices == o.1.devices && db.tokens == o.1.tokens && db.nextId == o.1.nextId
  {
    var first := db.nextId;
    ghost var t := TablesOf(db.devices, db.tokens, first);
    var saved := db.InsertDevice(d);
    if !saved {
      r := ErrorResult(InternalServerError);
      SaveRegisteredOutcome(t, d, p, randomBytes, now, r, TablesOf(db.devices, db.tokens, db.nextId));
      return;
    }
    assert db.devices == t.devices + [d] && db.nextId == first + 1;
    r := SaveInitialToken(db, p, d, randomBytes, now);
    SaveRegisteredOutcome(t, d, p, randomBytes, now, r, TablesOf(db.devices, db.tokens, db.nextId));
  }

  /** The second save of a registration: the initial token of the saved device `d`. */
  method SaveInitialToken(db: Database, p: Primitives, d: Device, randomBytes: seq<byte>, now: Time)
    returns (r: ApiResponse<Device>)
    requires db.Valid() && |randomBytes| == 32
    modifies db`tokens, db`nextId
    ensures db.Valid() && db.nextId == old(db.nextId) + 1
    ensures var tok := InitialToken(old(db.nextId), now, d.id, p, randomBytes);
            if TokenFits(db.devices, old(db.tokens), tok)
            then r == SuccessResult(d, Some(RegisteredMessage)) && db.tokens == old(db.tokens) + [tok]
            else r == ErrorResult(InternalServerError) && db.tokens == old(db.tokens)
  {
    var token := GenerateToken(db, p, d.id, Some(InitialTokenName), randomBytes, now);
    r := if token.Failure? then ErrorResult(InternalServerError) else SuccessResult(d, Some(RegisteredMessage));
  }

  /** The registration steps on the database, for a given outcome of the name expression. */
  method RegisterNamed(db: Database, p: Primitives, req: RegisterRequest, name: Result<string, Fault>,
                       randomBytes: seq<byte>, now: Time) returns (r: ApiResponse<Device>)
    requires db.Valid() && |randomBytes| == 32
    modifies db`devices, db`tokens, db`nextId
    ensures db.Valid()
    ensures (r, TablesOf(db.devices, db.tokens, db.nextId))
         == Registration(TablesOf(old(db.devices), old(db.tokens), old(db.nextId)), db.users, p, req, name, randomBytes, now)
  {
    if DeviceIndex(db.devices, req.deviceId).Some? {
      return ErrorResult("Device already registered");
    }
    var u := UserIndex(db.users, req.userEmail);
    if u.None? {
      return ErrorResult("User not found");
    }
    if name.Failure? {
      return ErrorResult(InternalServerError);
    }
    var d := RegisteredDevice(db.nextId, now, req.deviceId, db.users[u.value].id, name.value);
    r := SaveRegisteredRows(db, p, d, randomBytes, now);
  }

  /** RegisterDeviceHandler as written. */
  method Register(db: Database, p: Primitives, req: RegisterRequest, randomBytes: seq<byte>, now: Time)
    returns (r: ApiResponse<Device>)
    requires db.Valid() && |randomBytes| == 32
    modifies db`devices, db`tokens, db`nextId
    ensures db.Valid()
    ensures (r, TablesOf(db.devices, db.tokens, db.nextId))
         == Registration(TablesOf(old(db.devices), old(db.tokens), old(db.nextId)), db.users, p, req, AsWrittenName(req), randomBytes, now)
  {
    r := RegisterNamed(db, p, req, AsWrittenName(req), randomBytes, now);
  }

  /** RegisterDeviceHandler with the name interpolated as intended. */
  method RegisterIntended(db: Database, p: Primitives, req: RegisterRequest, randomBytes: seq<byte>, now: Time)
    returns (r: ApiResponse<Device>)
    requires db.Valid() && |randomBytes| == 32
    modifies db`devices, db`tokens, db`nextId
    ensures db.Valid()
    ensures (r, TablesOf(db.devices, db.tokens, db.nextId))
         == Registration(TablesOf(old(db.devices), old(db.tokens), old(db.nextId)), db.users, p, req, IntendedName(req), randomBytes, now)
  {
    r := RegisterNamed(db, p, req, IntendedName(req), randomBytes, now);
  }

  /** OrderByDescending(LastSeen) on PostgreSQL, where a missing value sorts first. */
  predicate SeenLaterFirst(a: Device, b: Device) {
    a.lastSeen.None? || (b.lastSeen.Some? && a.lastSeen.value >= b.lastSeen.value)
  }

  function OwnedBy(userKey: int): Device -> bool {
    (d: Device) => d.userId == userKey
  }

  /** GetUserDevicesHandler: exactly the user's devices, most recently seen first. */
  function UserDevices(devices: seq<Device>, userKey: int): (r: seq<Device>)
    ensures multiset(r) == multiset(Filter(devices, OwnedBy(userKey)))
    ensures forall d :: d in r <==> d in devices && d.userId == userKey
    ensures SortedBy(r, SeenLaterFirst)
  {
    assert TotalPreorder(SeenLaterFirst);
    var r := Query(devices, OwnedBy(userKey), SeenLaterFirst, |devices|);
    forall d | d in devices && d.userId == userKey ensures d in r {
      assert OwnedBy(userKey)(d);
      assert d in multiset(Filter(devices, OwnedBy(userKey)));
    }
    r
  }

  /** In the list, a device never seen comes before every device that has been. */
  lemma NeverSeenListedFirst(devices: seq<Device>, userKey: int, i: nat, j: nat)
    requires var r := UserDevices(devices, userKey); i < |r| && j < |r| && r[j].lastSeen.None? && r[i].lastSeen.Some?
    ensures j < i
  {
    var r := UserDevices(devices, userKey);
    assert i != j;
  }

  /** GetDeviceByDeviceIdHandler. */
  function GetByDeviceId(devices: seq<Device>, deviceId: string): (r: ApiResponse<Device>)
    ensures r.success <==> exists i :: 0 <= i < |devices| && devices[i].deviceId == deviceId
    ensures !r.success ==> r == ErrorResult("Device not found")
    ensures r.success ==> r.data.Some? && r.data.value in devices && r.data.value.deviceId == deviceId
  {
    match DeviceIndex(devices, deviceId)
    case None => ErrorResult("Device not found")
    case Some(i) => SuccessResult(devices[i], None)
  }

  /** GetDeviceByIdHandler. */
  function GetById(devices: seq<Device>, id: int): (r: ApiResponse<Device>)
    ensures r.success <==> exists i :: 0 <= i < |devices| && devices[i].id == id
    ensures !r.success ==> r == ErrorResult("Device not found")
    ensures r.success ==> r.data.Some? && r.data.value in devices && r.data.value.id == id
  {
    match DeviceIndexByKey(devices, id)
    case None => ErrorResult("Device not found")
    case Some(i) => SuccessResult(devices[i], None)
  }

  datatype PlantConfig = PlantConfig(plantName: string, plantType: string, moistureThresholdLow: int,
                                     moistureThresholdHigh: int, wateringDuration: int, autoWateringEnabled: bool)
  datatype DeviceConfig = DeviceConfig(deviceId: string, deviceName: string, plant: Option<PlantConfig>)

  /** GetDeviceConfigHandler: the device's names and, when it has a plant, the plant's watering settings. */
  function GetConfig(devices: seq<Device>, plants: seq<Plant>, deviceId: string): (r: ApiResponse<DeviceConfig>)
    ensures DeviceIndex(devices, deviceId).None? <==> r == ErrorResult("Device not found")
    ensures r.success ==> r.data.Some? && r.data.value.deviceId == deviceId
    ensures r.success ==>
              var d := devices[DeviceIndex(devices, deviceId).value];
              && r.data.value.deviceName == d.deviceName
              && (r.data.value.plant.None? <==> forall i :: 0 <= i < |plants| ==> plants[i].deviceId != d.id)
              && (r.data.value.plant.Some? ==>
                    exists i :: 0 <= i < |plants| && plants[i].deviceId == d.id
                      && r.data.value.plant.value
                         == PlantConfig(plants[i].plantName, plants[i].plantType, plants[i].moistureThresholdLow,
                                        plants[i].moistureThresholdHigh, plants[i].wateringDuration,
                                        plants[i].autoWateringEnabled))
  {
    match DeviceIndex(devices, deviceId)
    case None => ErrorResult("Device not found")
    case Some(i) =>
      var d := devices[i];
      var plant := match PlantIndexOfDevice(plants, d.id)
        case None => None
        case Some(j) =>
          var p := plants[j];
          Some(PlantConfig(p.plantName, p.plantType, p.moistureThresholdLow, p.moistureThresholdHigh,
                           p.wateringDuration, p.autoWateringEnabled));
      SuccessResult(DeviceConfig(d.deviceId, d.deviceName, plant), None)
  }

  datatype UpdateRequest = UpdateRequest(id: int, deviceName: Option<string>, location: Option<string>, firmwareVersion: Option<string>)

  /** `!string.IsNullOrEmpty(value)`. */
  predicate Given(value: Option<string>) {
    value.Some? && |value.value| > 0
  }

  /** The device after UpdateDeviceHandler's assignments: a given value replaces the old one, and UpdatedAt is now. */
  function Updated(d: Device, req: UpdateRequest, now: Time): (r: Device)
    ensures r.deviceName == (if Given(req.deviceName) then req.deviceName.value else d.deviceName)
    ensures r.location == (if Given(req.location) then req.location else d.location)
    ensures r.firmwareVersion == (if Given(req.firmwareVersion) then req.firmwareVersion else d.firmwareVersion)
    ensures r.updatedAt == Some(now)
    ensures r.(deviceName := d.deviceName, location := d.location, firmwareVersion := d.firmwareVersion, updatedAt := d.updatedAt) == d
  {
    var named := if Given(req.deviceName) then d.(deviceName := req.deviceName.value) else d;
    var located := if Given(req.location) then named.(location := req.location) else named;
    var flashed := if Given(req.firmwareVersion) then located.(firmwareVersion := req.firmwareVersion) else located;
    flashed.(updatedAt := Some(now))
  }

  /** Repeating an update at the same moment changes nothing more. */
  lemma UpdateIdempotent(d: Device, req: UpdateRequest, now: Time)
    ensures Updated(Updated(d, req, now), req, now) == Updated(d, req, now)
  {
    var once := Updated(d, req, now);
    var twice := Updated(once, req, now);
    assert twice.(deviceName := once.deviceName, location := once.location,
                  firmwareVersion := once.firmwareVersion, updatedAt := once.updatedAt) == once;
  }

  /** An update that gives nothing only touches UpdatedAt. */
  lemma EmptyUpdateOnlyStamps(d: Device, req: UpdateRequest, now: Time)
    requires !Given(req.deviceName) && !Given(req.location) && !Given(req.firmwareVersion)
    ensures Updated(d, req, now) == d.(updatedAt := Some(now))
  {
    var u := Updated(d, req, now);
    assert u.(updatedAt := d.updatedAt) == d;
  }

  const UpdatedMessage := "Device updated successfully"

  /**
   * UpdateDeviceHandler: a name over 200 characters or a firmware version over 20
   * makes the save fail, and nothing changes.
   */
  method Update(db: Database, req: UpdateRequest, now: Time) returns (r: ApiResponse<Device>)
    requires db.Valid()
    modifies db`devices
    ensures db.Valid()
    ensures match DeviceIndexByKey(old(db.devices), req.id)
            case None => r == ErrorResult("Device not found") && db.devices == old(db.devices)
            case Some(i) =>
              var u := Updated(old(db.devices)[i], req, now);
              if |u.deviceName| <= 200 && FirmwareFits(u.firmwareVersion) then
                db.devices == old(db.devices)[i := u] && r == SuccessResult(u, Some(UpdatedMessage))
              else
                db.devices == old(db.devices) && r == ErrorResult(InternalServerError)
  {
    var found := DeviceIndexByKey(db.devices, req.id);
    if found.None? {
      return ErrorResult("Device not found");
    }
    var i := found.value;
    var u := Updated(db.devices[i], req, now);
    if |u.deviceName| > 200 || !FirmwareFits(u.firmwareVersion) {
      return ErrorResult(InternalServerError);
    }
    UpdateDevice(db.devices, i, u, db.nextId);
    db.devices := db.devices[i := u];
    r := SuccessResult(u, Some(UpdatedMessage));
  }

  datatype StatusRequest = StatusRequest(deviceId: string, isOnline: bool, lastSeen: Time)

  /** The device after UpdateDeviceStatusHandler: the reported status and time, stamped now. */
  function StatusUpdated(d: Device, req: StatusRequest, now: Time): (r: Device)
    ensures r.isOnline == req.isOnline && r.lastSeen == Some(req.lastSeen) && r.updatedAt == Some(now)
    ensures r.(isOnline := d.isOnline, lastSeen := d.lastSeen, updatedAt := d.updatedAt) == d
  {
    d.(isOnline := req.isOnline, lastSeen := Some(req.lastSeen), updatedAt := Some(now))
  }

  const StatusMessage := "Device status updated successfully"

  /** UpdateDeviceStatusHandler. */
  method UpdateStatus(db: Database, req: StatusRequest, now: Time) returns (r: ApiResponse<()>)
    requires db.Valid()
    modifies db`devices
    ensures db.Valid()
    ensures match DeviceIndex(old(db.devices), req.deviceId)
            case None => r == ErrorResult("Device not found") && db.devices == old(db.devices)
            case Some(i) =>
              db.devices == old(db.devices)[i := StatusUpdated(old(db.devices)[i], req, now)]
              && r == Done(Some(StatusMessage))
  {
    var found := DeviceIndex(db.devices, req.deviceId);
    if found.None? {
      return ErrorResult("Device not found");
    }
    var i := found.value;
    var u := StatusUpdated(db.devices[i], req, now);
    UpdateDevice(db.devices, i, u, db.nextId);
    db.devices := db.devices[i := u];
    r := Done(Some(StatusMessage));
  }

  /** After a status update the device is still found under its identifier, with the reported status. */
  lemma StatusVisibleAfterUpdate(devices: seq<Device>, nextId: int, req: StatusRequest, now: Time)
    requires DevicesValid(devices, nextId) && DeviceIndex(devices, req.deviceId).Some?
    ensures var i := DeviceIndex(devices, req.deviceId).value;
            var after := devices[i := StatusUpdated(devices[i], req, now)];
            GetByDeviceId(after, req.deviceId) == SuccessResult(StatusUpdated(devices[i], req, now), None)
  {
    var i := DeviceIndex(devices, req.deviceId).value;
    var after := devices[i := StatusUpdated(devices[i], req, now)];
    assert after[i].deviceId == req.deviceId;
    var k := DeviceIndex(after, req.deviceId).value;
    assert devices[k].deviceId == req.deviceId;
  }
}
