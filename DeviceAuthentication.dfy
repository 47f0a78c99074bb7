/**
 * DeviceApiKeyAuthenticationHandler: a request authenticates as a device when it
 * carries `Authorization: Bearer <secret>` and `X-Device-ID`, and the provisioned-token
 * check accepts the pair.
 */
module DeviceAuthentication {
  import opened Wrappers
  import opened Faults
  import opened Entities
  import opened Text
  import opened Crypto
  import opened Store
  import opened Provisioning

  /** Request headers: each name with the values sent under it. */
  type Headers = map<string, seq<string>>

  /** StringValues.ToString(): the values joined with commas; empty when the header is absent. */
  function JoinValues(values: seq<string>): (r: string)
    ensures |values| == 1 ==> r == values[0]
    ensures values == [] ==> r == ""
    ensures |values| > 1 ==> r == values[0] + "," + Join(",", values[1..])
  {
    if |values| > 1 then
      assert values == [values[0]] + values[1..];
      JoinCons(",", values[0], values[1..]);
      Join(",", values)
    else Join(",", values)
  }

  function HeaderText(headers: Headers, name: string): string {
    if name in headers then JoinValues(headers[name]) else ""
  }

  const BearerPrefix := "Bearer "

  datatype Claim = Claim(kind: string, value: string)

  /** AuthenticateResult: a ticket with its claims, a failure message, or an exception that escaped. */
  datatype Outcome = Authenticated(claims: seq<Claim>) | Rejected(failure: string) | Raised(fault: Fault)

  /** The secret the handler extracts: the trimmed text after `Bearer `. */
  function BearerSecret(authorization: string): string
    requires StartsWith(authorization, BearerPrefix)
  {
    Trim(authorization[|BearerPrefix|..])
  }

  /**
   * HandleAuthenticateAsync as a function of the headers and of the provisioned-token
   * check `verdict(secret, deviceId)`.
   */
  function Authenticate(headers: Headers, verdict: (string, string) -> Result<bool, Fault>): (r: Outcome)
    ensures "Authorization" !in headers ==> r == Rejected("Missing Authorization header")
    ensures "Authorization" in headers && !StartsWith(HeaderText(headers, "Authorization"), BearerPrefix) ==>
              r == Rejected("Invalid Authorization header format")
    ensures r.Authenticated? <==>
              && "Authorization" in headers && StartsWith(HeaderText(headers, "Authorization"), BearerPrefix)
              && HeaderText(headers, "X-Device-ID") != ""
              && verdict(BearerSecret(HeaderText(headers, "Authorization")), HeaderText(headers, "X-Device-ID")) == Success(true)
    ensures r.Authenticated? ==>
              r.claims == [Claim("device_id", HeaderText(headers, "X-Device-ID")), Claim("token_type", "device_api_key")]
    ensures r.Raised? ==>
              verdict(BearerSecret(HeaderText(headers, "Authorization")), HeaderText(headers, "X-Device-ID")) == Failure(r.fault)
    ensures "Authorization" in headers && StartsWith(HeaderText(headers, "Authorization"), BearerPrefix)
            && HeaderText(headers, "X-Device-ID") != "" ==>
              var v := verdict(BearerSecret(HeaderText(headers, "Authorization")), HeaderText(headers, "X-Device-ID"));
              && (v.Failure? ==> r == Raised(v.error))
              && (v == Success(false) ==> r == Rejected("Invalid device token"))
  {
    if "Authorization" !in headers then Rejected("Missing Authorization header")
    else
      var authorization := HeaderText(headers, "Authorization");
      if !StartsWith(authorization, BearerPrefix) then Rejected("Invalid Authorization header format")
      else
        var secret := BearerSecret(authorization);
        var deviceId := HeaderText(headers, "X-Device-ID");
        if deviceId == "" then Rejected("Missing X-Device-ID header")
        else
          match verdict(secret, deviceId)
          case Failure(e) => Raised(e)
          case Success(ok) =>
            if ok then Authenticated([Claim("device_id", deviceId), Claim("token_type", "device_api_key")])
            else Rejected("Invalid device token")
  }

  /** Without a device identifier the request is refused before any token is looked at. */
  lemma MissingDeviceIdSkipsCheck(headers: Headers, verdict: (string, string) -> Result<bool, Fault>,
                                  other: (string, string) -> Result<bool, Fault>)
    requires "Authorization" in headers && StartsWith(HeaderText(headers, "Authorization"), BearerPrefix)
    requires HeaderText(headers, "X-Device-ID") == ""
    ensures Authenticate(headers, verdict) == Authenticate(headers, other) == Rejected("Missing X-Device-ID header")
  {
  }

  /** The check the handler calls, over the database as it stands. */
  function ProvisionedVerdicts(devices: seq<Device>, tokens: seq<ApiToken>, p: Primitives)
    : (string, string) -> Result<bool, Fault>
  {
    (secret: string, deviceId: string) => ProvisionedVerdict(devices, tokens, p, secret, deviceId)
  }

  /** HandleAuthenticateAsync against the database; a successful check stamps the token's LastUsedAt. */
  method HandleAuthenticate(db: Database, p: Primitives, headers: Headers, now: Time)
    returns (r: Outcome)
    requires db.Valid()
    modifies db`tokens
    ensures db.Valid()
    ensures r == Authenticate(headers, ProvisionedVerdicts(old(db.devices), old(db.tokens), p))
    ensures !r.Authenticated? ==> db.tokens == old(db.tokens)
    ensures r.Authenticated? && StartsWith(HeaderText(headers, "Authorization"), BearerPrefix) ==>
              var c := ProvisionedCheck(old(db.devices), old(db.tokens), p, BearerSecret(HeaderText(headers, "Authorization")),
                                        HeaderText(headers, "X-Device-ID"));
              && c.Success? && c.value.Some? && c.value.value < |old(db.tokens)|
              && db.tokens == old(db.tokens)[c.value.value := old(db.tokens)[c.value.value].(lastUsedAt := Some(now))]
  {
    if "Authorization" !in headers {
      return Rejected("Missing Authorization header");
    }
    var authorization := HeaderText(headers, "Authorization");
    if !StartsWith(authorization, BearerPrefix) {
      return Rejected("Invalid Authorization header format");
    }
    var secret := BearerSecret(authorization);
    var deviceId := HeaderText(headers, "X-Device-ID");
    if deviceId == "" {
      return Rejected("Missing X-Device-ID header");
    }
    var verdict := ValidateProvisioned(db, p, secret, deviceId, now);
    match verdict
    case Failure(e) =>
      r := Raised(e);
    case Success(ok) =>
      if ok {
        r := Authenticated([Claim("device_id", deviceId), Claim("token_type", "device_api_key")]);
      } else {
        r := Rejected("Invalid device token");
      }
  }
}
