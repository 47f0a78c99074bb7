/**
 * The register and update rules for devices. Each validator answers with the
 * messages of the rules that fail, in rule order; no message means valid.
 */
module DeviceValidators {
  import opened Wrappers
  import opened Entities
  import opened Text
  import opened DeviceHandlers
  import Store

  /** `[A-F0-9]`. */
  predicate IsUpperHex(c: char) {
    ('A' <= c <= 'F') || ('0' <= c <= '9')
  }

  /** "PM-" followed by one or more upper-case hexadecimal digits, and nothing else. */
  predicate StrictDeviceIdFormat(s: string) {
    |s| > 3 && s[..3] == "PM-" && forall i :: 3 <= i < |s| ==> IsUpperHex(s[i])
  }

  /**
   * What .NET's `^PM-[A-F0-9]+$` accepts: `$` without RegexOptions.Multiline matches
   * at the very end and also just before a final line feed.
   */
  predicate MatchesDeviceIdPattern(s: string) {
    StrictDeviceIdFormat(s) || (|s| > 0 && s[|s| - 1] == '\n' && StrictDeviceIdFormat(s[..|s| - 1]))
  }

  /** The pattern accepts every strictly formatted identifier, and only one other shape: such an identifier and a line feed. */
  lemma PatternAcceptsTrailingLineFeed(s: string)
    ensures StrictDeviceIdFormat(s) ==> MatchesDeviceIdPattern(s)
    ensures MatchesDeviceIdPattern(s) && !StrictDeviceIdFormat(s) ==>
              |s| >= 5 && s[|s| - 1] == '\n' && StrictDeviceIdFormat(s[..|s| - 1])
  {
  }

  /** An identifier with a line feed at the end passes the pattern. */
  lemma LineFeedIdentifierAccepted()
    ensures MatchesDeviceIdPattern("PM-A1\n") && !StrictDeviceIdFormat("PM-A1\n")
  {
    var s := "PM-A1\n";
    assert s[..|s| - 1] == "PM-A1";
    assert !IsUpperHex(s[5]);
  }

  const DeviceIdRequired := "Device ID is required"
  const DeviceIdFormat := "Device ID must be in format PM-XXXXXX"
  const EmailRequired := "User email is required"
  const EmailInvalid := "Valid email address is required"
  const NameTooLong := "Device name cannot exceed 100 characters"
  const IdRequired := "Valid device ID is required"
  const LocationTooLong := "Location cannot exceed 200 characters"

  /** A rule's message when it fails. */
  function Check(ok: bool, message: string): seq<string> {
    if ok then [] else [message]
  }

  /**
   * RegisterDeviceCommandValidator, with the identifier rule as written or as intended.
   * EmailAddress() is a library rule and is the `isEmail` parameter; a missing name
   * passes MaximumLength.
   */
  function RegisterErrors(req: RegisterRequest, isEmail: string -> bool, idFormat: string -> bool): (r: seq<string>)
    ensures r == [] <==>
              && !IsBlank(req.deviceId) && idFormat(req.deviceId)
              && !IsBlank(req.userEmail) && isEmail(req.userEmail)
              && (req.deviceName.None? || |req.deviceName.value| <= 100)
    ensures |r| <= 5
  {
    Check(!IsBlank(req.deviceId), DeviceIdRequired) + Check(idFormat(req.deviceId), DeviceIdFormat)
    + Check(!IsBlank(req.userEmail), EmailRequired) + Check(isEmail(req.userEmail), EmailInvalid)
    + Check(req.deviceName.None? || |req.deviceName.value| <= 100, NameTooLong)
  }

  /** The register rules as written. */
  function RegisterValidation(req: RegisterRequest, isEmail: string -> bool): seq<string> {
    RegisterErrors(req, isEmail, MatchesDeviceIdPattern)
  }

  /** The register rules with the identifier anchored at the very end. */
  function RegisterValidationStrict(req: RegisterRequest, isEmail: string -> bool): seq<string> {
    RegisterErrors(req, isEmail, StrictDeviceIdFormat)
  }

  /** With the strict rule, every accepted identifier is "PM-" and upper-case hexadecimal digits only. */
  lemma StrictIdentifiersAreHex(req: RegisterRequest, isEmail: string -> bool)
    requires RegisterValidationStrict(req, isEmail) == []
    ensures StartsWith(req.deviceId, "PM-") && |req.deviceId| >= 4
    ensures forall i :: 3 <= i < |req.deviceId| ==> IsUpperHex(req.deviceId[i])
  {
  }

  /** The as-written rules let an identifier ending with a line feed through to registration. */
  lemma RegisterAcceptsLineFeed(isEmail: string -> bool)
    requires isEmail("a@example.com")
    ensures RegisterValidation(RegisterRequest("PM-A1\n", "a@example.com", None), isEmail) == []
    ensures RegisterValidationStrict(RegisterRequest("PM-A1\n", "a@example.com", None), isEmail) != []
  {
    LineFeedIdentifierAccepted();
    var s := "PM-A1\n";
    assert !IsBlank(s) by { assert !IsWhiteSpace(s[0]); }
    assert !IsBlank("a@example.com") by { assert !IsWhiteSpace("a@example.com"[0]); }
  }

  /** Every identifier the register rules accept has four characters or more, so the intended name never throws. */
  lemma ValidIdentifierNamesSafely(req: RegisterRequest, isEmail: string -> bool)
    requires RegisterValidation(req, isEmail) == []
    ensures |req.deviceId| >= 4
    ensures IntendedName(req).Success?
  {
  }

  /** A name the register rules accept fits the 200-character column. */
  lemma ValidNameFitsColumn(req: RegisterRequest, isEmail: string -> bool)
    requires RegisterValidation(req, isEmail) == []
    ensures |AsWrittenName(req).value| <= 200
  {
  }

  /** UpdateDeviceCommandValidator: the name and location limits apply only to non-empty values. */
  function UpdateValidation(req: UpdateRequest): (r: seq<string>)
    ensures r == [] <==>
              && req.id > 0
              && (!Given(req.deviceName) || |req.deviceName.value| <= 100)
              && (!Given(req.location) || |req.location.value| <= 200)
  {
    Check(req.id > 0, IdRequired)
    + (if Given(req.deviceName) then Check(|req.deviceName.value| <= 100, NameTooLong) else [])
    + (if Given(req.location) then Check(|req.location.value| <= 200, LocationTooLong) else [])
  }

  /** An update the rules accept never makes the save fail on the device name. */
  lemma ValidUpdateFitsColumn(d: Device, req: UpdateRequest, now: Time)
    requires UpdateValidation(req) == [] && |d.deviceName| <= 200
    ensures |Updated(d, req, now).deviceName| <= 200
  {
  }

  /**
   * The update rules say nothing about the firmware version: a request they accept
   * may carry one too long for its 20-character column, and its save then fails.
   */
  lemma ValidUpdateMayOverflowFirmware(d: Device, req: UpdateRequest, firmwareVersion: string, now: Time)
    requires UpdateValidation(req) == [] && |firmwareVersion| > 20
    ensures var flashed := req.(firmwareVersion := Some(firmwareVersion));
            UpdateValidation(flashed) == [] && !Store.FirmwareFits(Updated(d, flashed, now).firmwareVersion)
  {
  }
}
