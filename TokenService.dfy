/**
 * DeviceTokenService: device secrets are random, handed to the caller once, and
 * stored only as their hash; validation looks the hash up, and revocation
 * deactivates the row with that hash.
 */
module TokenService {
  import opened Wrappers
  import opened Faults
  import opened Entities
  import opened Sequences
  import opened Store
  import opened Base64
  import opened Crypto

  /** The row GenerateTokenAsync inserts: it holds the hash of the secret and not the secret. */
  function IssuedToken(id: int, now: Time, deviceId: int, hash: string, tokenName: Option<string>): (t: ApiToken)
    ensures t.id == id && t.createdAt == now && t.deviceId == deviceId && t.tokenHash == hash
    ensures t.tokenName == Some(tokenName.GetOr("API Token"))
    ensures t.isActive && t.expiresAt.None? && t.lastUsedAt.None?
  {
    NewApiToken(id, now).(deviceId := deviceId, tokenHash := hash,
      tokenName := Some(tokenName.GetOr("API Token")), isActive := true)
  }

  /**
   * GenerateTokenAsync: the secret is the base 64 text of 32 random bytes. One active
   * row carrying its hash is added and the secret returned, unless the database
   * rejects the row, in which case nothing is added and the call throws.
   */
  method GenerateToken(db: Database, p: Primitives, deviceId: int, tokenName: Option<string>,
                       randomBytes: seq<byte>, now: Time)
    returns (r: Result<string, Fault>)
    requires db.Valid() && |randomBytes| == 32
    modifies db`tokens, db`nextId
    ensures db.Valid()
    ensures db.nextId == old(db.nextId) + 1
    ensures var t := IssuedToken(old(db.nextId), now, deviceId, ComputeHash(p, Encode(randomBytes)), tokenName);
            if TokenFits(db.devices, old(db.tokens), t)
            then r == Success(Encode(randomBytes)) && db.tokens == old(db.tokens) + [t]
            else r == Failure(DbUpdate) && db.tokens == old(db.tokens)
  {
    var secret := Encode(randomBytes);
    var id := db.NewId();
    var t := IssuedToken(id, now, deviceId, ComputeHash(p, secret), tokenName);
    if TokenFits(db.devices, db.tokens, t) {
      db.tokens := db.tokens + [t];
      r := Success(secret);
    } else {
      r := Failure(DbUpdate);
    }
  }

  /** The secrets GenerateTokenAsync hands out are 44 characters of base 64. */
  lemma GeneratedSecretShape(randomBytes: seq<byte>)
    requires |randomBytes| == 32
    ensures |Encode(randomBytes)| == 44
    ensures forall i :: 0 <= i < 43 ==> IsAlphabetChar(Encode(randomBytes)[i])
    ensures Encode(randomBytes)[43] == '='
  {
    assert EncodedLength(32) == 44 && PadLength(32) == 1;
  }

  /** The row ValidateTokenAsync accepts: same hash and device, active, not expired. */
  predicate Accepts(t: ApiToken, hash: string, deviceId: int, now: Time) {
    t.tokenHash == hash && t.deviceId == deviceId && t.isActive && (t.expiresAt.None? || t.expiresAt.value > now)
  }

  function AcceptedIndex(tokens: seq<ApiToken>, hash: string, deviceId: int, now: Time): (r: Option<nat>)
    ensures r.Some? ==> r.value < |tokens| && Accepts(tokens[r.value], hash, deviceId, now)
    ensures r.None? <==> forall i :: 0 <= i < |tokens| ==> !Accepts(tokens[i], hash, deviceId, now)
  {
    FirstIndex(tokens, (t: ApiToken) => Accepts(t, hash, deviceId, now))
  }

  /**
   * ValidateTokenAsync: true iff some row accepts the secret's hash; then that row's
   * LastUsedAt becomes `now` and nothing else changes; otherwise nothing changes.
   */
  method ValidateToken(db: Database, p: Primitives, token: string, deviceId: int, now: Time)
    returns (ok: bool)
    requires db.Valid()
    modifies db`tokens
    ensures db.Valid()
    ensures ok <==> exists i :: 0 <= i < |old(db.tokens)| && Accepts(old(db.tokens)[i], ComputeHash(p, token), deviceId, now)
    ensures match AcceptedIndex(old(db.tokens), ComputeHash(p, token), deviceId, now)
            case None => db.tokens == old(db.tokens)
            case Some(i) => db.tokens == old(db.tokens)[i := old(db.tokens)[i].(lastUsedAt := Some(now))]
  {
    var found := AcceptedIndex(db.tokens, ComputeHash(p, token), deviceId, now);
    match found
    case None =>
      ok := false;
    case Some(i) =>
      db.tokens := db.tokens[i := db.tokens[i].(lastUsedAt := Some(now))];
      ok := true;
  }

  /** The table after revoking `hash`: the first row with that hash is deactivated. */
  function Revoked(tokens: seq<ApiToken>, hash: string): (r: seq<ApiToken>)
    ensures |r| == |tokens|
    ensures forall i :: 0 <= i < |tokens| ==> r[i].tokenHash == tokens[i].tokenHash && r[i].deviceId == tokens[i].deviceId
    ensures forall i :: 0 <= i < |tokens| && tokens[i].tokenHash != hash ==> r[i] == tokens[i]
    ensures forall i :: 0 <= i < |tokens| && tokens[i].tokenHash == hash && (forall j :: 0 <= j < i ==> tokens[j].tokenHash != hash) ==>
              r[i] == tokens[i].(isActive := false)
    ensures forall i, j :: 0 <= j < i < |tokens| && tokens[j].tokenHash == hash ==> r[i] == tokens[i]
  {
    match FirstIndex(tokens, (t: ApiToken) => t.tokenHash == hash)
    case None => tokens
    case Some(i) => tokens[i := tokens[i].(isActive := false)]
  }

  /** RevokeTokenAsync: deactivates the row with that hash; no row, no change. */
  method Revoke(db: Database, hash: string)
    requires db.Valid()
    modifies db`tokens
    ensures db.Valid()
    ensures db.tokens == Revoked(old(db.tokens), hash)
  {
    var found := FirstIndex(db.tokens, (t: ApiToken) => t.tokenHash == hash);
    if found.Some? {
      var i := found.value;
      db.tokens := db.tokens[i := db.tokens[i].(isActive := false)];
    }
  }

  /** Revoking twice is revoking once. */
  lemma RevokeIdempotent(tokens: seq<ApiToken>, hash: string)
    ensures Revoked(Revoked(tokens, hash), hash) == Revoked(tokens, hash)
  {
    var once := Revoked(tokens, hash);
    var p := (t: ApiToken) => t.tokenHash == hash;
    match FirstIndex(tokens, p)
    case None =>
    case Some(i) =>
      assert FirstIndex(once, p) == Some(i) by {
        assert forall j :: 0 <= j < |tokens| ==> p(once[j]) == p(tokens[j]);
      }
  }

  /** In a valid table, once a hash is revoked no row accepts it. */
  lemma RevokedHashRejected(tokens: seq<ApiToken>, nextId: int, hash: string, deviceId: int, now: Time)
    requires TokensValid(tokens, nextId)
    ensures AcceptedIndex(Revoked(tokens, hash), hash, deviceId, now).None?
  {
    var r := Revoked(tokens, hash);
    match FirstIndex(tokens, (t: ApiToken) => t.tokenHash == hash)
    case None =>
    case Some(i) =>
      forall j | 0 <= j < |r| ensures !Accepts(r[j], hash, deviceId, now) {
        if j != i {
          assert tokens[j].tokenHash != tokens[i].tokenHash;
        }
      }
  }

  /**
   * The round trip: a freshly generated secret validates for its device, and no
   * longer does once its hash is revoked.
   */
  method GenerateValidateRevoke(db: Database, p: Primitives, deviceId: int, randomBytes: seq<byte>, now: Time)
    returns (generated: Result<string, Fault>, before: bool, after: bool)
    requires db.Valid() && |randomBytes| == 32
    modifies db`tokens, db`nextId
    ensures db.Valid()
    ensures generated.Success? ==> before && !after
  {
    generated := GenerateToken(db, p, deviceId, None, randomBytes, now);
    before, after := false, false;
    if generated.Success? {
      var secret := generated.value;
      assert Accepts(db.tokens[|db.tokens| - 1], ComputeHash(p, secret), deviceId, now);
      before := ValidateToken(db, p, secret, deviceId, now);
      var validated := db.tokens;
      Revoke(db, ComputeHash(p, secret));
      RevokedHashRejected(validated, db.nextId, ComputeHash(p, secret), deviceId, now);
      after := ValidateToken(db, p, secret, deviceId, now);
    }
  }
}
