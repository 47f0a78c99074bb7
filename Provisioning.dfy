/**
 * DeviceProvisioningService: factory provisioning of a device with a `PM_` secret
 * stored as a BCrypt hash, and the check of such a secret that device
 * authentication relies on.
 */
module Provisioning {
  import opened Wrappers
  import opened Faults
  import opened Entities
  import opened Store
  import opened Text
  import opened Base64
  import opened Crypto

  datatype ProvisioningResult = ProvisioningResult(
    deviceId: string, token: string, success: bool, errorMessage: Option<string>)

  /** The two tables provisioning touches, with the key counter. */
  datatype Tables = Tables(devices: seq<Device>, tokens: seq<ApiToken>, nextId: int)

  predicate TablesValid(t: Tables) {
    DevicesValid(t.devices, t.nextId) && TokensValid(t.tokens, t.nextId)
  }

  /** GenerateSecureTokenAsync: `PM_`, the device identifier, `_`, then URL-safe base 64 without padding. */
  function SecureToken(deviceId: string, randomBytes: seq<byte>): (t: string)
    ensures StartsWith(t, "PM_" + deviceId + "_")
    ensures |t| == |deviceId| + 4 + EncodedLength(|randomBytes|) - PadLength(|randomBytes|)
    ensures forall i :: |deviceId| + 4 <= i < |t| ==> IsUrlSafeChar(t[i])
  {
    var prefix := "PM_" + deviceId + "_";
    var suffix := UrlSafeEncode(randomBytes);
    ConcatParts(prefix, suffix);
    prefix + suffix
  }

  /** With the 32 random bytes the service draws, the suffix is 43 characters. */
  lemma SecureTokenLength(deviceId: string, randomBytes: seq<byte>)
    requires |randomBytes| == 32
    ensures |SecureToken(deviceId, randomBytes)| == |deviceId| + 47
  {
    UrlSafeLengthOf32(randomBytes);
  }

  /** The first query of ProvisionNewDeviceAsync: an active token whose device has this identifier. */
  predicate AlreadyProvisioned(devices: seq<Device>, tokens: seq<ApiToken>, deviceId: string) {
    exists i :: 0 <= i < |tokens| && tokens[i].isActive && tokens[i].deviceId in KeysOf(devices, deviceId)
  }

  /** `$"Plant Monitor {deviceId.Substring(deviceId.Length - 4)}"`, which throws for fewer than 4 characters. */
  function DefaultDeviceName(deviceId: string): (r: Result<string, Fault>)
    ensures r.Failure? <==> |deviceId| < 4
    ensures r.Failure? ==> r.error == ArgumentOutOfRange
    ensures r.Success? ==> r.value == "Plant Monitor " + deviceId[|deviceId| - 4..]
  {
    match LastChars(deviceId, 4)
    case Failure(e) => Failure(e)
    case Success(tail) => Success("Plant Monitor " + tail)
  }

  /** The device row provisioning creates: owned by user 1, active, an ESP32 monitor. */
  function ProvisionedDevice(id: int, now: Time, deviceId: string, name: string): (d: Device)
    ensures d.id == id && d.deviceId == deviceId && d.deviceName == name
    ensures d.userId == 1 && d.status == Active && d.deviceType == ESP32PlantMonitor && !d.isOnline
  {
    NewDevice(id, now).(deviceId := deviceId, deviceName := name, deviceType := ESP32PlantMonitor,
                        status := Active, userId := 1)
  }

  /** The token row provisioning creates: the BCrypt hash of the secret, named "Factory Provisioned". */
  function ProvisionedToken(id: int, now: Time, deviceKey: int, hash: string): (t: ApiToken)
    ensures t.id == id && t.deviceId == deviceKey && t.tokenHash == hash && t.isActive
    ensures t.tokenName == Some("Factory Provisioned") && t.expiresAt.None?
  {
    NewApiToken(id, now).(deviceId := deviceKey, tokenHash := hash,
                          tokenName := Some("Factory Provisioned"), isActive := true)
  }

  function Refusal(deviceId: string, message: string): ProvisioningResult {
    ProvisioningResult(deviceId, "", false, Some(message))
  }

  /** The second SaveChanges of ProvisionNewDeviceAsync: the token row for the device with key `deviceKey`. */
  function IssueProvisioned(t: Tables, p: Primitives, deviceId: string, deviceKey: int, token: string,
                            salt: nat, now: Time): (o: (ProvisioningResult, Tables))
    requires TablesValid(t) && deviceKey in KeysOf(t.devices, deviceId)
    ensures TablesValid(o.1) && o.1.devices == t.devices && o.1.nextId == t.nextId + 1 && o.0.deviceId == deviceId
    ensures o.0.success ==>
              && o.0.token == token && o.0.errorMessage.None?
              && o.1.tokens == t.tokens + [ProvisionedToken(t.nextId, now, deviceKey, p.bcryptHash(token, salt))]
              && AlreadyProvisioned(o.1.devices, o.1.tokens, deviceId)
    ensures !o.0.success ==> o.0 == Refusal(deviceId, DbUpdate.Message()) && o.1.tokens == t.tokens
    ensures p.Sound() ==> (o.0.success <==> forall j :: 0 <= j < |t.tokens| ==> t.tokens[j].tokenHash != p.bcryptHash(token, salt))
  {
    var row := ProvisionedToken(t.nextId, now, deviceKey, p.bcryptHash(token, salt));
    assert deviceKey in Keys(t.devices);
    if TokenFits(t.devices, t.tokens, row) then
      var o := (ProvisioningResult(deviceId, token, true, None), t.(tokens := t.tokens + [row], nextId := t.nextId + 1));
      assert o.1.tokens[|t.tokens|] == row;
      o
    else
      (Refusal(deviceId, DbUpdate.Message()), t.(nextId := t.nextId + 1))
  }

  /** ProvisionNewDeviceAsync past its first check: find or create the device, then issue the token. */
  function ProvisionUnclaimed(t: Tables, p: Primitives, deviceId: string, token: string, salt: nat, now: Time)
    : (o: (ProvisioningResult, Tables))
    requires TablesValid(t)
    ensures TablesValid(o.1) && o.0.deviceId == deviceId && o.1.nextId >= t.nextId
    ensures o.0.success ==> o.0.token == token && o.0.errorMessage.None? && AlreadyProvisioned(o.1.devices, o.1.tokens, deviceId)
    ensures !o.0.success ==> o.0.token == "" && o.0.errorMessage.Some? && o.1.tokens == t.tokens
    ensures DeviceIndex(t.devices, deviceId).Some? ==> o.1.devices == t.devices
    ensures DeviceIndex(t.devices, deviceId).None? && |deviceId| < 4 ==>
              o == (Refusal(deviceId, ArgumentOutOfRange.Message()), t)
  {
    match DeviceIndex(t.devices, deviceId)
    case Some(i) =>
      KeysOfFound(t.devices, t.nextId, deviceId, i);
      IssueProvisioned(t, p, deviceId, t.devices[i].id, token, salt, now)
    case None => ProvisionNew(t, p, deviceId, token, salt, now)
  }

  /** The branch of ProvisionUnclaimed for an unknown identifier: add the device row, then issue the token. */
  function ProvisionNew(t: Tables, p: Primitives, deviceId: string, token: string, salt: nat, now: Time)
    : (o: (ProvisioningResult, Tables))
    requires TablesValid(t) && DeviceIndex(t.devices, deviceId).None?
    ensures TablesValid(o.1) && o.0.deviceId == deviceId && o.1.nextId >= t.nextId
    ensures o.0.success ==> o.0.token == token && o.0.errorMessage.None? && AlreadyProvisioned(o.1.devices, o.1.tokens, deviceId)
    ensures !o.0.success ==> o.0.token == "" && o.0.errorMessage.Some? && o.1.tokens == t.tokens
    ensures |deviceId| < 4 ==> o == (Refusal(deviceId, ArgumentOutOfRange.Message()), t)
  {
    match DefaultDeviceName(deviceId)
    case Failure(e) => (Refusal(deviceId, e.Message()), t)
    case Success(name) =>
      var d := ProvisionedDevice(t.nextId, now, deviceId, name);
      if DeviceFits(t.devices, d) then
        AddDevice(t.devices, d, t.nextId);
        KeysOfFound(t.devices + [d], t.nextId + 1, deviceId, |t.devices|);
        IssueProvisioned(t.(devices := t.devices + [d], nextId := t.nextId + 1), p, deviceId, d.id, token, salt, now)
      else
        (Refusal(deviceId, DbUpdate.Message()), t.(nextId := t.nextId + 1))
  }

  /** When the device row fits, ProvisionNew is the token issue on the tables holding that row. */
  lemma ProvisionNewIssues(t: Tables, p: Primitives, deviceId: string, name: string, token: string, salt: nat, now: Time)
    requires TablesValid(t) && DeviceIndex(t.devices, deviceId).None? && DefaultDeviceName(deviceId) == Success(name)
    requires DeviceFits(t.devices, ProvisionedDevice(t.nextId, now, deviceId, name))
    ensures var d := ProvisionedDevice(t.nextId, now, deviceId, name);
            var t1 := t.(devices := t.devices + [d], nextId := t.nextId + 1);
            TablesValid(t1) && d.id in KeysOf(t1.devices, deviceId)
            && ProvisionNew(t, p, deviceId, token, salt, now) == IssueProvisioned(t1, p, deviceId, d.id, token, salt, now)
  {
    var d := ProvisionedDevice(t.nextId, now, deviceId, name);
    var t1 := t.(devices := t.devices + [d], nextId := t.nextId + 1);
    AddDevice(t.devices, d, t.nextId);
    KeysOfFound(t1.devices, t1.nextId, deviceId, |t.devices|);
    assert TablesValid(t1);
    assert d.id in KeysOf(t1.devices, deviceId);
  }

  /**
   * ProvisionNewDeviceAsync as a function of the tables before the call: the result
   * and the tables after it. Every exception is caught and reported in the result.
   */
  function Provision(t: Tables, p: Primitives, deviceId: string, randomBytes: seq<byte>, salt: nat, now: Time)
    : (o: (ProvisioningResult, Tables))
    requires TablesValid(t)
    ensures TablesValid(o.1) && o.0.deviceId == deviceId
    ensures AlreadyProvisioned(t.devices, t.tokens, deviceId) ==>
              o == (Refusal(deviceId, "Device already provisioned"), t)
    ensures o.0.success ==>
              && o.0.token == SecureToken(deviceId, randomBytes) && o.0.errorMessage.None?
              && AlreadyProvisioned(o.1.devices, o.1.tokens, deviceId)
    ensures !o.0.success ==> o.0.token == "" && o.0.errorMessage.Some? && o.1.tokens == t.tokens
  {
    if AlreadyProvisioned(t.devices, t.tokens, deviceId) then
      (Refusal(deviceId, "Device already provisioned"), t)
    else
      ProvisionUnclaimed(t, p, deviceId, SecureToken(deviceId, randomBytes), salt, now)
  }

  /** The state Provision reads and writes, taken from the database. */
  function TablesOf(devices: seq<Device>, tokens: seq<ApiToken>, nextId: int): Tables {
    Tables(devices, tokens, nextId)
  }

  /** The token-row half of ProvisionNewDeviceAsync. */
  method IssueProvisionedRow(db: Database, p: Primitives, deviceId: string, deviceKey: int, token: string,
                             salt: nat, now: Time)
    returns (r: ProvisioningResult)
    requires db.Valid() && deviceKey in KeysOf(db.devices, deviceId)
    modifies db`tokens, db`nextId
    ensures db.Valid()
    ensures (r, TablesOf(db.devices, db.tokens, db.nextId))
            == IssueProvisioned(TablesOf(db.devices, old(db.tokens), old(db.nextId)), p, deviceId, deviceKey, token, salt, now)
  {
    var tokenId := db.NewId();
    var row := ProvisionedToken(tokenId, now, deviceKey, p.bcryptHash(token, salt));
    if TokenFits(db.devices, db.tokens, row) {
      db.tokens := db.tokens + [row];
      r := ProvisioningResult(deviceId, token, true, None);
    } else {
      r := Refusal(deviceId, DbUpdate.Message());
    }
  }

  /** ProvisionNewDeviceAsync past its first check, one SaveChanges at a time. */
  method ProvisionUnclaimedRows(db: Database, p: Primitives, deviceId: string, token: string, salt: nat, now: Time)
    returns (r: ProvisioningResult)
    requires db.Valid()
    modifies db`devices, db`tokens, db`nextId
    ensures db.Valid()
    ensures (r, TablesOf(db.devices, db.tokens, db.nextId))
            == ProvisionUnclaimed(TablesOf(old(db.devices), old(db.tokens), old(db.nextId)), p, deviceId, token, salt, now)
  {
    var found := DeviceIndex(db.devices, deviceId);
    if found.Some? {
      KeysOfFound(db.devices, db.nextId, deviceId, found.value);
      r := IssueProvisionedRow(db, p, deviceId, db.devices[found.value].id, token, salt, now);
    } else {
      r := ProvisionNewRows(db, p, deviceId, token, salt, now);
    }
  }

  /** ProvisionNew on the database: the device row's SaveChanges, then the token row's. */
  method ProvisionNewRows(db: Database, p: Primitives, deviceId: string, token: string, salt: nat, now: Time)
    returns (r: ProvisioningResult)
    requires db.Valid() && DeviceIndex(db.devices, deviceId).None?
    modifies db`devices, db`tokens, db`nextId
    ensures db.Valid()
    ensures (r, TablesOf(db.devices, db.tokens, db.nextId))
            == ProvisionNew(TablesOf(old(db.devices), old(db.tokens), old(db.nextId)), p, deviceId, token, salt, now)
  {
    ghost var t0 := TablesOf(db.devices, db.tokens, db.nextId);
    var name := DefaultDeviceName(deviceId);
    if name.Failure? {
      return Refusal(deviceId, name.error.Message());
    }
    var d := ProvisionedDevice(db.nextId, now, deviceId, name.value);
    var saved := db.InsertDevice(d);
    if !saved {
      return Refusal(deviceId, DbUpdate.Message());
    }
    ProvisionNewIssues(t0, p, deviceId, name.value, token, salt, now);
    assert d.id in KeysOf(db.devices, deviceId);
    r := IssueProvisionedRow(db, p, deviceId, d.id, token, salt, now);
  }

  /** ProvisionNewDeviceAsync. */
  method ProvisionNewDevice(db: Database, p: Primitives, deviceId: string, randomBytes: seq<byte>,
                            salt: nat, now: Time)
    returns (r: ProvisioningResult)
    requires db.Valid()
    modifies db`devices, db`tokens, db`nextId
    ensures db.Valid()
    ensures (r, TablesOf(db.devices, db.tokens, db.nextId))
            == Provision(TablesOf(old(db.devices), old(db.tokens), old(db.nextId)), p, deviceId, randomBytes, salt, now)
  {
    if AlreadyProvisioned(db.devices, db.tokens, deviceId) {
      return Refusal(deviceId, "Device already provisioned");
    }
    r := ProvisionUnclaimedRows(db, p, deviceId, SecureToken(deviceId, randomBytes), salt, now);
  }

  /** A row of the device's token collection that the validation loop tries. */
  predicate Candidate(t: ApiToken, deviceKey: int) {
    t.isActive && t.deviceId == deviceKey
  }

  /**
   * The validation loop from position `i` on: the index of the first active token of
   * the device that BCrypt verifies, none, or the exception a foreign hash raises.
   */
  function CheckFrom(tokens: seq<ApiToken>, deviceKey: int, p: Primitives, token: string, i: nat)
    : (r: Result<Option<nat>, Fault>)
    requires i <= |tokens|
    ensures r.Success? && r.value.Some? ==>
              i <= r.value.value < |tokens| && Candidate(tokens[r.value.value], deviceKey)
              && p.bcryptVerify(token, tokens[r.value.value].tokenHash) == Some(true)
    ensures r == Success(None) <==>
              forall j :: i <= j < |tokens| && Candidate(tokens[j], deviceKey) ==>
                p.bcryptVerify(token, tokens[j].tokenHash) == Some(false)
    ensures r.Success? && r.value.Some? ==>
              forall j :: i <= j < r.value.value && Candidate(tokens[j], deviceKey) ==>
                p.bcryptVerify(token, tokens[j].tokenHash) == Some(false)
    ensures r.Failure? ==> r.error == SaltParse
    decreases |tokens| - i
  {
    if i == |tokens| then Success(None)
    else if Candidate(tokens[i], deviceKey) then
      match p.bcryptVerify(token, tokens[i].tokenHash)
      case None => Failure(SaltParse)
      case Some(ok) => if ok then Success(Some(i)) else CheckFrom(tokens, deviceKey, p, token, i + 1)
    else CheckFrom(tokens, deviceKey, p, token, i + 1)
  }

  /** The loop throws only at a candidate whose hash BCrypt cannot parse, every earlier candidate having been rejected. */
  lemma {:induction false} CheckFromFault(tokens: seq<ApiToken>, deviceKey: int, p: Primitives, token: string, i: nat)
    requires i <= |tokens| && CheckFrom(tokens, deviceKey, p, token, i).Failure?
    ensures exists f :: i <= f < |tokens| && Candidate(tokens[f], deviceKey) && p.bcryptVerify(token, tokens[f].tokenHash).None?
              && forall j :: i <= j < f && Candidate(tokens[j], deviceKey) ==> p.bcryptVerify(token, tokens[j].tokenHash) == Some(false)
    decreases |tokens| - i
  {
    if Candidate(tokens[i], deviceKey) && p.bcryptVerify(token, tokens[i].tokenHash).None? {
      assert i <= i < |tokens|;
    } else {
      CheckFromFault(tokens, deviceKey, p, token, i + 1);
      var f :| i + 1 <= f < |tokens| && Candidate(tokens[f], deviceKey) && p.bcryptVerify(token, tokens[f].tokenHash).None?
                && forall j :: i + 1 <= j < f && Candidate(tokens[j], deviceKey) ==> p.bcryptVerify(token, tokens[j].tokenHash) == Some(false);
      assert i <= f;
    }
  }

  /** ValidateProvisionedTokenAsync as a function of the tables: an unknown device is refused. */
  function ProvisionedCheck(devices: seq<Device>, tokens: seq<ApiToken>, p: Primitives, token: string,
                            deviceId: string): (r: Result<Option<nat>, Fault>)
    ensures DeviceIndex(devices, deviceId).None? ==> r == Success(None)
    ensures r.Success? && r.value.Some? ==> r.value.value < |tokens|
    ensures DeviceIndex(devices, deviceId).Some? ==>
              var key := devices[DeviceIndex(devices, deviceId).value].id;
              && (r.Success? && r.value.Some? ==>
                    && Candidate(tokens[r.value.value], key)
                    && p.bcryptVerify(token, tokens[r.value.value].tokenHash) == Some(true)
                    && forall j :: 0 <= j < r.value.value && Candidate(tokens[j], key) ==>
                         p.bcryptVerify(token, tokens[j].tokenHash) == Some(false))
              && (r == Success(None) <==>
                    forall j :: 0 <= j < |tokens| && Candidate(tokens[j], key) ==> p.bcryptVerify(token, tokens[j].tokenHash) == Some(false))
  {
    match DeviceIndex(devices, deviceId)
    case None => Success(None)
    case Some(k) => CheckFrom(tokens, devices[k].id, p, token, 0)
  }

  /** The boolean the service answers, or the exception it lets escape. */
  function ProvisionedVerdict(devices: seq<Device>, tokens: seq<ApiToken>, p: Primitives, token: string,
                              deviceId: string): (r: Result<bool, Fault>)
    ensures r == Success(true) <==> exists j :: ProvisionedCheck(devices, tokens, p, token, deviceId) == Success(Some(j))
  {
    match ProvisionedCheck(devices, tokens, p, token, deviceId)
    case Failure(e) => Failure(e)
    case Success(found) => Success(found.Some?)
  }

  /**
   * ValidateProvisionedTokenAsync: tries the device's active tokens in turn and stamps
   * LastUsedAt on the first that verifies. The exception BCrypt raises is not caught.
   */
  method ValidateProvisioned(db: Database, p: Primitives, token: string, deviceId: string, now: Time)
    returns (r: Result<bool, Fault>)
    requires db.Valid()
    modifies db`tokens
    ensures db.Valid()
    ensures r == ProvisionedVerdict(old(db.devices), old(db.tokens), p, token, deviceId)
    ensures match ProvisionedCheck(old(db.devices), old(db.tokens), p, token, deviceId)
            case Success(Some(j)) => db.tokens == old(db.tokens)[j := old(db.tokens)[j].(lastUsedAt := Some(now))]
            case _ => db.tokens == old(db.tokens)
  {
    var found := DeviceIndex(db.devices, deviceId);
    if found.None? {
      return Success(false);
    }
    var deviceKey := db.devices[found.value].id;
    var i := 0;
    while i < |db.tokens|
      invariant 0 <= i <= |db.tokens| && db.tokens == old(db.tokens)
      invariant CheckFrom(db.tokens, deviceKey, p, token, 0) == CheckFrom(db.tokens, deviceKey, p, token, i)
      decreases |db.tokens| - i
    {
      var stored := db.tokens[i];
      if Candidate(stored, deviceKey) {
        var verified := p.bcryptVerify(token, stored.tokenHash);
        if verified.None? {
          return Failure(SaltParse);
        }
        if verified.value {
          db.tokens := db.tokens[i := stored.(lastUsedAt := Some(now))];
          return Success(true);
        }
      }
      i := i + 1;
    }
    r := Success(false);
  }

  /** Tables that differ at most in the ExpiresAt of their rows. */
  predicate SameButExpiry(tokens: seq<ApiToken>, other: seq<ApiToken>) {
    |tokens| == |other| && forall j :: 0 <= j < |tokens| ==> other[j] == tokens[j].(expiresAt := other[j].expiresAt)
  }

  /** The validation loop never looks at ExpiresAt. */
  lemma {:induction false} CheckFromIgnoresExpiry(tokens: seq<ApiToken>, other: seq<ApiToken>, deviceKey: int,
                                                  p: Primitives, token: string, i: nat)
    requires SameButExpiry(tokens, other) && i <= |tokens|
    ensures CheckFrom(tokens, deviceKey, p, token, i) == CheckFrom(other, deviceKey, p, token, i)
    decreases |tokens| - i
  {
    if i < |tokens| {
      assert other[i].isActive == tokens[i].isActive && other[i].tokenHash == tokens[i].tokenHash;
      CheckFromIgnoresExpiry(tokens, other, deviceKey, p, token, i + 1);
    }
  }

  /** So an expired provisioned token is accepted exactly as an unexpired one. */
  lemma ProvisionedCheckIgnoresExpiry(devices: seq<Device>, tokens: seq<ApiToken>, other: seq<ApiToken>,
                                      p: Primitives, token: string, deviceId: string)
    requires SameButExpiry(tokens, other)
    ensures ProvisionedCheck(devices, tokens, p, token, deviceId) == ProvisionedCheck(devices, other, p, token, deviceId)
  {
    match DeviceIndex(devices, deviceId)
    case None =>
    case Some(k) => CheckFromIgnoresExpiry(tokens, other, devices[k].id, p, token, 0);
  }

  /** When only the last row is a candidate and it verifies, the loop finds it. */
  lemma {:induction false} CheckFromFindsLast(tokens: seq<ApiToken>, deviceKey: int, p: Primitives, token: string, i: nat)
    requires i < |tokens|
    requires forall j :: i <= j < |tokens| - 1 ==> !Candidate(tokens[j], deviceKey)
    requires Candidate(tokens[|tokens| - 1], deviceKey)
    requires p.bcryptVerify(token, tokens[|tokens| - 1].tokenHash) == Some(true)
    ensures CheckFrom(tokens, deviceKey, p, token, i) == Success(Some(|tokens| - 1))
    decreases |tokens| - i
  {
    if i < |tokens| - 1 {
      CheckFromFindsLast(tokens, deviceKey, p, token, i + 1);
    }
  }

  /** A freshly issued row is the device's only candidate, so the secret it was issued for validates. */
  lemma IssueThenValidate(t: Tables, p: Primitives, deviceId: string, deviceKey: int, token: string, salt: nat, now: Time)
    requires TablesValid(t) && p.Sound() && KeysOf(t.devices, deviceId) == {deviceKey}
    requires forall j :: 0 <= j < |t.tokens| ==> !Candidate(t.tokens[j], deviceKey)
    requires IssueProvisioned(t, p, deviceId, deviceKey, token, salt, now).0.success
    ensures var o := IssueProvisioned(t, p, deviceId, deviceKey, token, salt, now);
            ProvisionedVerdict(o.1.devices, o.1.tokens, p, token, deviceId) == Success(true)
  {
    var o := IssueProvisioned(t, p, deviceId, deviceKey, token, salt, now);
    var k := DeviceIndex(t.devices, deviceId).value;
    assert t.devices[k].id == deviceKey by {
      assert t.devices[k] in t.devices;
    }
    CheckFromFindsLast(o.1.tokens, deviceKey, p, token, 0);
  }

  /** Past the first check, a successful provisioning leaves a secret that validates. */
  lemma UnclaimedThenValidate(t: Tables, p: Primitives, deviceId: string, token: string, salt: nat, now: Time)
    requires TablesValid(t) && p.Sound() && !AlreadyProvisioned(t.devices, t.tokens, deviceId)
    requires ProvisionUnclaimed(t, p, deviceId, token, salt, now).0.success
    ensures var o := ProvisionUnclaimed(t, p, deviceId, token, salt, now);
            ProvisionedVerdict(o.1.devices, o.1.tokens, p, token, deviceId) == Success(true)
  {
    match DeviceIndex(t.devices, deviceId)
    case Some(i) =>
      var key := t.devices[i].id;
      KeysOfFound(t.devices, t.nextId, deviceId, i);
      IssueThenValidate(t, p, deviceId, key, token, salt, now);
    case None => NewDeviceThenValidate(t, p, deviceId, token, salt, now);
  }

  /** The case of UnclaimedThenValidate where the device row is created first. */
  lemma NewDeviceThenValidate(t: Tables, p: Primitives, deviceId: string, token: string, salt: nat, now: Time)
    requires TablesValid(t) && p.Sound() && !AlreadyProvisioned(t.devices, t.tokens, deviceId)
    requires DeviceIndex(t.devices, deviceId).None?
    requires ProvisionUnclaimed(t, p, deviceId, token, salt, now).0.success
    ensures var o := ProvisionUnclaimed(t, p, deviceId, token, salt, now);
            ProvisionedVerdict(o.1.devices, o.1.tokens, p, token, deviceId) == Success(true)
  {
    var name := DefaultDeviceName(deviceId);
    assert name.Success?;
    var d := ProvisionedDevice(t.nextId, now, deviceId, name.value);
    assert DeviceFits(t.devices, d);
    var withDevice := t.(devices := t.devices + [d], nextId := t.nextId + 1);
    ProvisionNewIssues(t, p, deviceId, name.value, token, salt, now);
    AddDevice(t.devices, d, t.nextId);
    KeysOfFound(withDevice.devices, withDevice.nextId, deviceId, |t.devices|);
    IssueThenValidate(withDevice, p, deviceId, d.id, token, salt, now);
  }

  /** The secret a successful provisioning returns passes validation afterwards. */
  lemma ProvisionThenValidate(t: Tables, p: Primitives, deviceId: string, randomBytes: seq<byte>, salt: nat, now: Time)
    requires TablesValid(t) && p.Sound()
    requires Provision(t, p, deviceId, randomBytes, salt, now).0.success
    ensures var o := Provision(t, p, deviceId, randomBytes, salt, now);
            ProvisionedVerdict(o.1.devices, o.1.tokens, p, o.0.token, deviceId) == Success(true)
  {
    UnclaimedThenValidate(t, p, deviceId, SecureToken(deviceId, randomBytes), salt, now);
  }

  /** A device whose active tokens were all issued by DeviceTokenService makes validation throw. */
  lemma {:induction false} CheckFromFailsOnForeignHashes(tokens: seq<ApiToken>, deviceKey: int, p: Primitives,
                                                         token: string, i: nat)
    requires p.RejectsForeignHashes() && i <= |tokens|
    requires exists j :: i <= j < |tokens| && Candidate(tokens[j], deviceKey)
    requires forall j :: i <= j < |tokens| && Candidate(tokens[j], deviceKey) ==> !LooksLikeBcrypt(tokens[j].tokenHash)
    ensures CheckFrom(tokens, deviceKey, p, token, i) == Failure(SaltParse)
    decreases |tokens| - i
  {
    if !Candidate(tokens[i], deviceKey) {
      CheckFromFailsOnForeignHashes(tokens, deviceKey, p, token, i + 1);
    }
  }

  /**
   * A device registered through the register handler holds SHA-256 token hashes only,
   * so the provisioned-token check raises SaltParseException for every secret presented.
   */
  lemma ShaTokensNeverValidate(devices: seq<Device>, tokens: seq<ApiToken>, p: Primitives, token: string,
                               deviceId: string, secrets: seq<string>)
    requires p.RejectsForeignHashes()
    requires DeviceIndex(devices, deviceId).Some?
    requires |secrets| == |tokens|
    requires var key := devices[DeviceIndex(devices, deviceId).value].id;
             && (exists j :: 0 <= j < |tokens| && Candidate(tokens[j], key))
             && forall j :: 0 <= j < |tokens| && Candidate(tokens[j], key) ==> tokens[j].tokenHash == ComputeHash(p, secrets[j])
    ensures ProvisionedVerdict(devices, tokens, p, token, deviceId) == Failure(SaltParse)
  {
    var key := devices[DeviceIndex(devices, deviceId).value].id;
    forall j | 0 <= j < |tokens| && Candidate(tokens[j], key) ensures !LooksLikeBcrypt(tokens[j].tokenHash) {
      ComputeHashIsNotBcrypt(p, secrets[j]);
    }
    CheckFromFailsOnForeignHashes(tokens, key, p, token, 0);
  }

  /** Provisioning a device twice: the second call is refused and changes nothing. */
  method ProvisionTwice(db: Database, p: Primitives, deviceId: string, firstBytes: seq<byte>, secondBytes: seq<byte>,
                        firstSalt: nat, secondSalt: nat, now: Time)
    returns (first: ProvisioningResult, second: ProvisioningResult)
    requires db.Valid()
    modifies db`devices, db`tokens, db`nextId
    ensures db.Valid()
    ensures first.success ==> second == Refusal(deviceId, "Device already provisioned")
  {
    first := ProvisionNewDevice(db, p, deviceId, firstBytes, firstSalt, now);
    second := ProvisionNewDevice(db, p, deviceId, secondBytes, secondSalt, now);
  }
}
