/**
 * The authentication handlers the core keeps: the duplicate-email check of user
 * registration, and the device-token generate and validate wrappers.
 */
module AuthHandlers {
  import opened Wrappers
  import opened Faults
  import opened Entities
  import opened Text
  import opened Store
  import opened Base64
  import opened Crypto
  import opened ApiResponses
  import opened TokenService

  datatype RegisterUserRequest = RegisterUserRequest(email: string, firstName: string, lastName: string, timeZone: string)

  const DuplicateEmail := "User with this email already exists"
  const UserRegistered := "User registered successfully"

  /**
   * RegisterUserHandler. The identity store's own checks are outside the model: the
   * descriptions of the errors it reports are a parameter, and none means it accepted
   * the user. Its save then throws when a name or the time zone is too long for its
   * column, and the handler answers "Internal server error".
   */
  method RegisterUser(db: Database, req: RegisterUserRequest, identityErrors: seq<string>) returns (r: ApiResponse<User>)
    requires db.Valid()
    modifies db`users, db`nextId
    ensures db.Valid()
    ensures NormalizedUserIndex(old(db.users), req.email).Some? ==> r == ErrorResult(DuplicateEmail) && db.users == old(db.users)
    ensures NormalizedUserIndex(old(db.users), req.email).None? && identityErrors != [] ==>
              r == ErrorResult(Join(", ", identityErrors)) && db.users == old(db.users)
    ensures NormalizedUserIndex(old(db.users), req.email).None? && identityErrors == [] ==>
              var u := User(old(db.nextId), req.email, req.firstName, req.lastName, req.timeZone);
              if UserColumnsFit(u) then db.users == old(db.users) + [u] && r == SuccessResult(u, Some(UserRegistered))
              else db.users == old(db.users) && r == ErrorResult(InternalServerError)
  {
    if NormalizedUserIndex(db.users, req.email).Some? {
      return ErrorResult(DuplicateEmail);
    }
    if identityErrors != [] {
      return ErrorResult(Join(", ", identityErrors));
    }
    var id := db.NewId();
    var u := User(id, req.email, req.firstName, req.lastName, req.timeZone);
    if !UserColumnsFit(u) {
      return ErrorResult(InternalServerError);
    }
    assert forall i :: 0 <= i < |db.users| ==> db.users[i].email != u.email;
    db.users := db.users + [u];
    r := SuccessResult(u, Some(UserRegistered));
  }

  /** After one registration succeeds, a second with the same email, in any letter case, is refused. */
  method RegisterUserTwice(db: Database, req: RegisterUserRequest, again: RegisterUserRequest) returns (first: ApiResponse<User>, second: ApiResponse<User>)
    requires db.Valid() && ToUpper(again.email) == ToUpper(req.email)
    modifies db`users, db`nextId
    ensures first.success ==> second == ErrorResult(DuplicateEmail)
  {
    first := RegisterUser(db, req, []);
    ghost var registered := db.users;
    second := RegisterUser(db, again, []);
    if first.success {
      assert ToUpper(registered[|registered| - 1].email) == ToUpper(again.email);
    }
  }

  datatype GenerateRequest = GenerateRequest(deviceId: string, tokenName: Option<string>)

  const TokenGenerated := "Token generated successfully"

  /** GenerateDeviceTokenHandler: the token service's secret for the device, or an error. */
  method GenerateDeviceToken(db: Database, p: Primitives, req: GenerateRequest, randomBytes: seq<byte>, now: Time)
    returns (r: ApiResponse<string>)
    requires db.Valid() && |randomBytes| == 32
    modifies db`tokens, db`nextId
    ensures db.Valid()
    ensures DeviceIndex(db.devices, req.deviceId).None? ==> r == ErrorResult("Device not found") && db.tokens == old(db.tokens)
    ensures DeviceIndex(db.devices, req.deviceId).Some? ==>
              var key := db.devices[DeviceIndex(db.devices, req.deviceId).value].id;
              var t := IssuedToken(old(db.nextId), now, key, ComputeHash(p, Encode(randomBytes)), req.tokenName);
              if TokenFits(db.devices, old(db.tokens), t)
              then r == SuccessResult(Encode(randomBytes), Some(TokenGenerated)) && db.tokens == old(db.tokens) + [t]
              else r == ErrorResult(InternalServerError) && db.tokens == old(db.tokens)
  {
    var found := DeviceIndex(db.devices, req.deviceId);
    if found.None? {
      return ErrorResult("Device not found");
    }
    var token := GenerateToken(db, p, db.devices[found.value].id, req.tokenName, randomBytes, now);
    match token
    case Failure(_) =>
      r := ErrorResult(InternalServerError);
    case Success(secret) =>
      r := SuccessResult(secret, Some(TokenGenerated));
  }

  datatype ValidateRequest = ValidateRequest(token: string, deviceId: string)

  /** ValidateDeviceTokenHandler: an unknown device is a successful `false`, never an error. */
  method ValidateDeviceToken(db: Database, p: Primitives, req: ValidateRequest, now: Time) returns (r: ApiResponse<bool>)
    requires db.Valid()
    modifies db`tokens
    ensures db.Valid()
    ensures r.data.Some? && r == SuccessResult(r.data.value, None)
    ensures DeviceIndex(db.devices, req.deviceId).None? ==> r == SuccessResult(false, None) && db.tokens == old(db.tokens)
    ensures DeviceIndex(db.devices, req.deviceId).Some? ==>
              var key := db.devices[DeviceIndex(db.devices, req.deviceId).value].id;
              && (r.data.value <==> exists i :: 0 <= i < |old(db.tokens)| && Accepts(old(db.tokens)[i], ComputeHash(p, req.token), key, now))
              && match AcceptedIndex(old(db.tokens), ComputeHash(p, req.token), key, now)
                 case None => db.tokens == old(db.tokens)
                 case Some(i) => db.tokens == old(db.tokens)[i := old(db.tokens)[i].(lastUsedAt := Some(now))]
  {
    var found := DeviceIndex(db.devices, req.deviceId);
    if found.None? {
      return SuccessResult(false, None);
    }
    var ok := ValidateToken(db, p, req.token, db.devices[found.value].id, now);
    r := SuccessResult(ok, None);
  }

  /** A token generated through the handler validates through the handler for the same device. */
  method GenerateThenValidate(db: Database, p: Primitives, deviceId: string, randomBytes: seq<byte>, now: Time)
    returns (generated: ApiResponse<string>, validated: ApiResponse<bool>)
    requires db.Valid() && |randomBytes| == 32
    modifies db`tokens, db`nextId
    ensures generated.success ==> validated == SuccessResult(true, None)
  {
    generated := GenerateDeviceToken(db, p, GenerateRequest(deviceId, None), randomBytes, now);
    ghost var issued := db.tokens;
    validated := ValidateDeviceToken(db, p, ValidateRequest(Encode(randomBytes), deviceId), now);
    if generated.success {
      var key := db.devices[DeviceIndex(db.devices, deviceId).value].id;
      assert Accepts(issued[|issued| - 1], ComputeHash(p, Encode(randomBytes)), key, now);
    }
  }
}
