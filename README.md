# PlantMonitor core, modelled in Dafny

PlantMonitor is a back end for ESP32 soil-moisture monitors. A device is provisioned at
the factory with a BCrypt-hashed secret. A user then claims or registers it, which gives
it a plant with moisture thresholds. The device reports sensor readings, and a reading
can raise low-water and critical-moisture alerts. The device also reports watering
events and polls a command queue for manual-watering and configuration commands.
Handlers answer with an `ApiResponse` envelope.

This project models that core in Dafny:

* the command queue (create, poll, acknowledge, history, expiry sweep);
* device API tokens (generate, validate, revoke) and factory provisioning;
* the device authentication handler and the API-key middleware;
* the device, claim, plant, sensor-data, watering-event, alert and auth handlers,
  including manual watering;
* the FluentValidation validators;
* the `ApiResponse` factories, the entity defaults, and the constraints the EF model
  configuration puts on the tables.

The database context is the class `Store.Database`. It has one `seq` field per table
and an id counter. `Database.Valid()` holds the unique indexes and length limits of
the EF configuration. Each handler is a method on the database. Its `modifies` clause
names the tables it may write. Its `ensures` tie the answer and the new tables to pure
functions of the old state, or state them outright. A `SaveChanges` that the
constraints reject is modelled as the exception the handler catches. Nothing of that
save is committed, and the handler answers "Internal server error". Time is an integer
number of seconds, and each call receives one `now`.

Hashing, BCrypt and randomness are parameters. The record `Crypto.Primitives` holds the
SHA-256 digest, BCrypt's hash and BCrypt's verify as function values. `Sound()` states
what the model assumes of them: the digest is 32 bytes, and verify accepts what hash
produced. The random bytes of a token and the BCrypt salt are passed in. Base 64
(RFC 4648, section 4) is implemented and proved to have the encoded length and
alphabet.

## Model

| member | source | states |
|---|---|---|
| Entities.NewDeviceCommand | PlantMonitor.Domain/Entities/DeviceCommand.cs:6-17 | a new command is Pending with priority 1 and parameters "{}", expires ten minutes after creation, and has no execution or acknowledgement data |
| Entities.NewApiToken | PlantMonitor.Domain/Entities/ApiToken.cs:5-13 | a new token is active, never expires, was never used, and has scopes "{}" |
| Entities.NewDevice | PlantMonitor.Domain/Entities/Device.cs:5-17 | a new device is offline, Active, of type ESP32PlantMonitor, with no last-seen time, location or firmware |
| Entities.NewPlant | PlantMonitor.Domain/Entities/Plant.cs:5-15 | a new plant has thresholds 30/70, a 10-second watering duration, and auto-watering on |
| Entities.NewDeviceAlert | PlantMonitor.Domain/Entities/DeviceAlert.cs:6-16 | a new alert is unresolved, with no resolver or resolution time, and metadata "{}" |
| Entities.NewWateringEvent | PlantMonitor.Domain/Entities/WateringEvent.cs:6-18 | a new watering event is successful and has no plant |
| Store.DeviceIndex | PlantMonitor.Application/Features/Devices/Handlers/DeviceHandlers.cs:38-39 | the lookup by DeviceId returns a device with that identifier, and returns nothing exactly when no device has it |
| Store.DeviceIndexByKey | PlantMonitor.Application/Features/Devices/Handlers/DeviceHandlers.cs:146-148 | the lookup by primary key returns a device with that key, and returns nothing exactly when none exists |
| Store.PlantIndexOfDevice | PlantMonitor.Application/Features/Devices/Handlers/DeviceHandlers.cs:183 | the device's plant navigation finds a plant of that device, and finds nothing exactly when the device has no plant |
| Store.PlantIndex | PlantMonitor.Application/Features/Plants/Handlers/PlantHandlers.cs:113-114 | the plant lookup by key finds that plant, and finds nothing exactly when no plant has the key |
| Store.UserIndex | PlantMonitor.Application/Features/Devices/Handlers/DeviceHandlers.cs:46-47 | the user lookup by email finds a user with that email, and finds nothing exactly when none exists |
| Store.NormalizedUserIndex | PlantMonitor.Application/Features/Auth/Handlers/AuthHandlers.cs:24 | the identity store's lookup finds a user whose upper-cased email is the upper-cased request email, nothing exactly when there is none, and nothing only if no email matches exactly either |
| Store.AddDevice | PlantMonitor.Infrastructure/Data/Configurations/EntityConfigurations.cs:38-59 | appending a device that fits the unique identifier index and the column lengths keeps the device table valid, adds exactly its key, and makes it the one the identifier finds |
| Store.UpdateDevice | PlantMonitor.Infrastructure/Data/Configurations/EntityConfigurations.cs:38-59 | replacing a device with one of the same key and identifier, a name of at most 200 characters and a firmware version of at most 20 keeps the table valid and leaves every identifier-to-key relation unchanged |
| Store.Database.constructor | PlantMonitor.Infrastructure/Data/ApplicationDbContext.cs:13-24 | a fresh context has every table empty, is valid, and starts ids at 1 |
| Store.Database.NewId | PlantMonitor.Infrastructure/Migrations/ApplicationDbContextModelSnapshot.cs:23 | each identity value is handed out once, and the counter moves on by one |
| Store.Database.InsertDevice | PlantMonitor.Infrastructure/Data/Configurations/EntityConfigurations.cs:36-59 | the device row is saved exactly when it fits the unique index and column lengths, otherwise nothing is saved; the identity value is consumed either way and the context stays valid |
| ApiResponses.SuccessResult | PlantMonitor.Application/Common/Models/ApiResponse.cs:10-11 | a success response is well formed, reports success, and carries the data and message given |
| ApiResponses.ErrorResult | PlantMonitor.Application/Common/Models/ApiResponse.cs:13-14 | an error response is well formed, reports failure, and carries the error given |
| ApiResponses.Done | PlantMonitor.Application/Common/Models/ApiResponse.cs:19-20 | the data-less success response reports success with no data and the given message |
| ApiResponses.FactoriesDistinguishable | PlantMonitor.Application/Common/Models/ApiResponse.cs:10-23 | for responses built by the factories, success holds exactly when there is no error, and every failure is the ErrorResult of its own error |
| Base64.Symbol | PlantMonitor.Infrastructure/Services/DeviceTokenService.cs:30 | every 6-bit value maps to a character of the base-64 alphabet |
| Base64.EncodeGroup | PlantMonitor.Infrastructure/Services/DeviceTokenService.cs:30 | three bytes encode to four alphabet characters |
| Base64.EncodeTail | PlantMonitor.Infrastructure/Services/DeviceTokenService.cs:30 | one or two trailing bytes encode to four characters: alphabet characters up to position n and '=' after it |
| Base64.Encode | PlantMonitor.Infrastructure/Services/DeviceTokenService.cs:30 | `Convert.ToBase64String` gives 4·⌈n/3⌉ characters, all from the alphabet except the padding, and '=' appears exactly in the last (3 − n mod 3) mod 3 positions |
| Base64.UrlSafeEncode | src/PlantMonitor.Infrastructure/Services/DeviceProvisioningService.cs:94-97 | after '+'→'-', '/'→'_' and dropping '=', every character is URL safe and the length is the encoded length minus the padding |
| Base64.UrlSafeLengthOf32 | src/PlantMonitor.Infrastructure/Services/DeviceProvisioningService.cs:88-97 | 32 random bytes give a 43-character URL-safe secret |
| Crypto.ComputeHash | PlantMonitor.Infrastructure/Services/DeviceTokenService.cs:93-98 | the stored token hash is the base 64 of the SHA-256 digest, 44 characters for a sound digest |
| Crypto.ComputeHashIsNotBcrypt | PlantMonitor.Infrastructure/Services/DeviceTokenService.cs:96-97 | a SHA-based token hash never opens with the '$' of a BCrypt hash |
| TokenService.IssuedToken | PlantMonitor.Infrastructure/Services/DeviceTokenService.cs:33-40 | the token row holds the device and hash, is named "API Token" unless a name is given, is active, and never expires |
| TokenService.GenerateToken | PlantMonitor.Infrastructure/Services/DeviceTokenService.cs:21-48 | the token row is stored and the base-64 secret returned exactly when the row fits the hash index, length and device key; otherwise the save fault is returned and nothing is stored |
| TokenService.GeneratedSecretShape | PlantMonitor.Infrastructure/Services/DeviceTokenService.cs:24-30 | a secret from 32 bytes has 44 characters: 43 from the alphabet and a final '=' |
| TokenService.AcceptedIndex | PlantMonitor.Infrastructure/Services/DeviceTokenService.cs:56-60 | the token found matches the hash and device and is active and unexpired, and none is found exactly when no row qualifies |
| TokenService.ValidateToken | PlantMonitor.Infrastructure/Services/DeviceTokenService.cs:50-77 | validation succeeds exactly when some stored row accepts the token's hash for the device now; only the row found gets LastUsedAt = now, and a failed validation changes nothing |
| TokenService.Revoked | PlantMonitor.Infrastructure/Services/DeviceTokenService.cs:81-86 | revoking keeps every row, its hash and its device; the first row with the hash becomes inactive and nothing else about it changes; every other row is untouched |
| TokenService.Revoke | PlantMonitor.Infrastructure/Services/DeviceTokenService.cs:79-91 | RevokeTokenAsync turns the table into its revoked form and keeps it valid |
| TokenService.RevokeIdempotent | PlantMonitor.Infrastructure/Services/DeviceTokenService.cs:79-91 | revoking twice is revoking once |
| TokenService.RevokedHashRejected | PlantMonitor.Infrastructure/Services/DeviceTokenService.cs:56-86 | after revocation no row accepts the revoked hash for any device at any time |
| TokenService.GenerateValidateRevoke | PlantMonitor.Infrastructure/Services/DeviceTokenService.cs:21-91 | a generated secret validates for its device, and no longer validates once its hash is revoked |
| CommandQueue.ExpirationTime | PlantMonitor.Infrastructure/Services/DeviceCommandsService.cs:111-120 | emergency stop expires in 2 minutes, manual watering in 5, configuration updates in 30 and every other command in 10, each exactly when it is that type |
| CommandQueue.CreateCommand | PlantMonitor.Infrastructure/Services/DeviceCommandsService.cs:13-32 | exactly one Pending command with the given device, type, parameters and priority is appended, expiring per its type, with a fresh id |
| CommandQueue.PollOrderIsTotal | PlantMonitor.Infrastructure/Services/DeviceCommandsService.cs:41-42 | priority-then-creation order, as written, is a total preorder, as OrderBy needs |
| CommandQueue.PollSelection | PlantMonitor.Infrastructure/Services/DeviceCommandsService.cs:36-44 | the poll selects min(10, qualifying) rows, each a distinct Pending, unexpired command of that device, in ascending priority then age; when 10 or fewer qualify it selects them all, and a qualifying row left out sorts after every row taken |
| CommandQueue.PollServesLowPriorityFirst | PlantMonitor.Infrastructure/Services/DeviceCommandsService.cs:41-43 | as written, a pending priority-1 (Low) command is delivered ahead of a pending priority-3 (High) one |
| CommandQueue.UrgentOrderIsTotal | PlantMonitor.Domain/Entities/DeviceCommand.cs:17 | highest-priority-first order is a total preorder |
| CommandQueue.UrgentSelection | PlantMonitor.Infrastructure/Services/DeviceCommandsService.cs:36-44 | the corrected poll selects min(10, qualifying) of the same qualifying rows, distinct, by descending priority then age, with the same completeness guarantee |
| CommandQueue.UrgentSelectionServesHighFirst | PlantMonitor.Infrastructure/Services/DeviceCommandsService.cs:41-43 | under the corrected order a High command is delivered ahead of any Low command that is delivered |
| CommandQueue.SetStatus | PlantMonitor.Infrastructure/Services/DeviceCommandsService.cs:47-50 | exactly the selected rows get the new status; every other row is unchanged |
| CommandQueue.MarkRows | PlantMonitor.Infrastructure/Services/DeviceCommandsService.cs:47-50 | the loop over the polled rows leaves the table as SetStatus describes |
| CommandQueue.Delivered | PlantMonitor.Infrastructure/Services/DeviceCommandsService.cs:47-58 | the commands handed to the device are the selected ones, each marked Sent |
| CommandQueue.Poll | PlantMonitor.Infrastructure/Services/DeviceCommandsService.cs:34-59 | GetPendingCommandsAsync marks exactly the poll selection Sent and returns it as delivered |
| CommandQueue.PollDeliversOnlyPending | PlantMonitor.Infrastructure/Services/DeviceCommandsService.cs:38-49 | every command delivered was Pending, belongs to the device, and had not expired |
| CommandQueue.RepeatedPollReturnsNothingTwice | PlantMonitor.Infrastructure/Services/DeviceCommandsService.cs:38-50 | a second poll never delivers a row the first poll delivered |
| CommandQueue.Acknowledged | PlantMonitor.Infrastructure/Services/DeviceCommandsService.cs:70-73 | an acknowledged command is Completed or Failed per the outcome, stamped now, with result and error recorded, and is otherwise unchanged |
| CommandQueue.CommandIndex | PlantMonitor.Infrastructure/Services/DeviceCommandsService.cs:63 | the lookup by id finds that command, and finds nothing exactly when no command has the id |
| CommandQueue.Acknowledge | PlantMonitor.Infrastructure/Services/DeviceCommandsService.cs:61-81 | the answer is true exactly when the command exists; only that row changes, whatever its status, and an unknown id changes nothing |
| CommandQueue.History | PlantMonitor.Infrastructure/Services/DeviceCommandsService.cs:83-90 | the history holds min(take, that device's commands) of the device's commands (none for a negative take), each at most as often as stored, newest first; any left out are no newer than those shown |
| CommandQueue.SweepSelection | PlantMonitor.Infrastructure/Services/DeviceCommandsService.cs:94-97 | the sweep reads exactly the Pending or Sent commands whose expiry is before now |
| CommandQueue.Swept | PlantMonitor.Infrastructure/Services/DeviceCommandsService.cs:94-102 | exactly the Pending or Sent commands that expired before now become Expired; every other row is unchanged |
| CommandQueue.Sweep | PlantMonitor.Infrastructure/Services/DeviceCommandsService.cs:92-109 | CleanupExpiredCommandsAsync leaves the table in its swept form |
| CommandQueue.SweepIdempotent | PlantMonitor.Infrastructure/Services/DeviceCommandsService.cs:92-109 | sweeping twice at the same time is sweeping once |
| CommandQueue.ExpiringNowIsInLimbo | PlantMonitor.Infrastructure/Services/DeviceCommandsService.cs:38-96 | a command whose expiry equals now is neither polled (ExpiresAt > now) nor swept (ExpiresAt < now) |
| Provisioning.SecureToken | src/PlantMonitor.Infrastructure/Services/DeviceProvisioningService.cs:86-100 | the secret is "PM_", the device id and "_", followed only by URL-safe characters, with the unpadded base-64 length |
| Provisioning.SecureTokenLength | src/PlantMonitor.Infrastructure/Services/DeviceProvisioningService.cs:88-99 | a secret from 32 bytes is 47 characters longer than the device id |
| Provisioning.DefaultDeviceName | src/PlantMonitor.Infrastructure/Services/DeviceProvisioningService.cs:46 | the name is "Plant Monitor " and the id's last four characters; it fails with ArgumentOutOfRange exactly when the id is shorter than four |
| Provisioning.ProvisionedDevice | src/PlantMonitor.Infrastructure/Services/DeviceProvisioningService.cs:43-50 | a factory device belongs to user 1, is Active, offline and of type ESP32PlantMonitor, and has the given id and name |
| Provisioning.ProvisionedToken | src/PlantMonitor.Infrastructure/Services/DeviceProvisioningService.cs:55-61 | the factory token row is active, never expires, is named "Factory Provisioned", and belongs to the device |
| Provisioning.IssueProvisioned | src/PlantMonitor.Infrastructure/Services/DeviceProvisioningService.cs:55-71 | the token save succeeds, with a sound BCrypt, exactly when its hash is new; then the row is appended and the device counts as provisioned; otherwise the refusal carries the save error and no token is stored |
| Provisioning.ProvisionUnclaimed | src/PlantMonitor.Infrastructure/Services/DeviceProvisioningService.cs:38-71 | success returns the token and leaves the device provisioned; failure stores no token; an existing device row is reused; an unknown id shorter than four changes nothing |
| Provisioning.ProvisionNew | src/PlantMonitor.Infrastructure/Services/DeviceProvisioningService.cs:41-71 | for an unknown device, success returns the token and leaves it provisioned; failure stores no token; an id shorter than four changes nothing |
| Provisioning.ProvisionNewIssues | src/PlantMonitor.Infrastructure/Services/DeviceProvisioningService.cs:41-64 | when the new device row fits, it is saved first and the token issue runs against the table that contains it |
| Provisioning.Provision | src/PlantMonitor.Infrastructure/Services/DeviceProvisioningService.cs:20-84 | an already provisioned device is refused with nothing changed; success returns the secure token and leaves the device provisioned; any failure stores no token |
| Provisioning.IssueProvisionedRow | src/PlantMonitor.Infrastructure/Services/DeviceProvisioningService.cs:55-71 | the token half of provisioning on the context does what IssueProvisioned describes |
| Provisioning.ProvisionUnclaimedRows | src/PlantMonitor.Infrastructure/Services/DeviceProvisioningService.cs:38-71 | the device-and-token half on the context does what ProvisionUnclaimed describes |
| Provisioning.ProvisionNewRows | src/PlantMonitor.Infrastructure/Services/DeviceProvisioningService.cs:41-71 | the new-device path on the context does what ProvisionNew describes |
| Provisioning.ProvisionNewDevice | src/PlantMonitor.Infrastructure/Services/DeviceProvisioningService.cs:20-84 | ProvisionNewDeviceAsync on the context does what Provision describes and keeps the context valid |
| Provisioning.CheckFrom | src/PlantMonitor.Infrastructure/Services/DeviceProvisioningService.cs:110-122 | the loop returns a match only at an active token of the device that BCrypt verifies, every earlier candidate having been rejected; none exactly when every candidate is rejected; a fault is the salt-parse exception |
| Provisioning.CheckFromFault | src/PlantMonitor.Infrastructure/Services/DeviceProvisioningService.cs:110-122 | when the loop throws, some candidate's hash made BCrypt throw and every candidate before it was rejected |
| Provisioning.ProvisionedCheck | src/PlantMonitor.Infrastructure/Services/DeviceProvisioningService.cs:104-122 | an unknown device gives no match without error; for a known device a match is the first active token of that device that BCrypt verifies, and there is no match exactly when BCrypt rejects every one of them |
| Provisioning.ProvisionedVerdict | src/PlantMonitor.Infrastructure/Services/DeviceProvisioningService.cs:102-123 | the answer is true exactly when the check finds a verifying token |
| Provisioning.ValidateProvisioned | src/PlantMonitor.Infrastructure/Services/DeviceProvisioningService.cs:102-123 | ValidateProvisionedTokenAsync answers the verdict; only the matching token's LastUsedAt is set to now, and nothing changes otherwise |
| Provisioning.CheckFromIgnoresExpiry | src/PlantMonitor.Infrastructure/Services/DeviceProvisioningService.cs:110-114 | the loop gives the same result whatever the tokens' ExpiresAt |
| Provisioning.ProvisionedCheckIgnoresExpiry | src/PlantMonitor.Infrastructure/Services/DeviceProvisioningService.cs:104-114 | the provisioned check accepts an expired token just as it accepts an unexpired one |
| Provisioning.CheckFromFindsLast | src/PlantMonitor.Infrastructure/Services/DeviceProvisioningService.cs:110-118 | the loop reaches and verifies a candidate that comes after every non-candidate row |
| Provisioning.IssueThenValidate | src/PlantMonitor.Infrastructure/Services/DeviceProvisioningService.cs:55-118 | a successfully issued factory token validates for its device |
| Provisioning.UnclaimedThenValidate | src/PlantMonitor.Infrastructure/Services/DeviceProvisioningService.cs:38-118 | after a successful provisioning of an unprovisioned device, its token validates |
| Provisioning.NewDeviceThenValidate | src/PlantMonitor.Infrastructure/Services/DeviceProvisioningService.cs:41-118 | a token issued with a newly created device row validates |
| Provisioning.ProvisionThenValidate | src/PlantMonitor.Infrastructure/Services/DeviceProvisioningService.cs:20-123 | the token that provisioning returns validates for the device (round trip) |
| Provisioning.CheckFromFailsOnForeignHashes | src/PlantMonitor.Infrastructure/Services/DeviceProvisioningService.cs:114 | when every candidate's hash is not a BCrypt hash, the loop throws the salt-parse fault |
| Provisioning.ShaTokensNeverValidate | src/PlantMonitor.Infrastructure/Services/DeviceProvisioningService.cs:110-114 | a device whose active tokens all come from the SHA token service makes the provisioned check throw instead of answering |
| Provisioning.ProvisionTwice | src/PlantMonitor.Infrastructure/Services/DeviceProvisioningService.cs:24-35 | after a successful provisioning, a second one for the same id is refused as already provisioned |
| DeviceAuthentication.JoinValues | PlantMonitor.Infrastructure/Authentication/DeviceApiKeyAuthenticationHandler.cs:32 | a header with one value reads as that value, an absent one as empty, and several values as the first, a comma, then the rest joined with commas |
| DeviceAuthentication.Authenticate | PlantMonitor.Infrastructure/Authentication/DeviceApiKeyAuthenticationHandler.cs:25-63 | a missing or non-Bearer Authorization header is rejected with its message; authentication succeeds exactly when a Bearer header and a device id are present and the verdict is true, with the two device claims; with both headers present, a throwing verdict surfaces as exactly its fault and a false verdict is "Invalid device token", and a surfaced fault is always the verdict's |
| DeviceAuthentication.MissingDeviceIdSkipsCheck | PlantMonitor.Infrastructure/Authentication/DeviceApiKeyAuthenticationHandler.cs:39-46 | without X-Device-ID the request is rejected before any token check, whatever the check would say |
| DeviceAuthentication.HandleAuthenticate | PlantMonitor.Infrastructure/Authentication/DeviceApiKeyAuthenticationHandler.cs:25-63 | on the context, the handler answers Authenticate with the provisioned-token verdict; an unauthenticated request changes no token, and an authenticated one stamps LastUsedAt on exactly the token the check matched |
| ApiKeyMiddleware.FirstValue | PlantMonitor.Api/Middleware/ApiKeyAuthenticationMiddleware.cs:56 | FirstOrDefault on a header gives its first value, and nothing exactly when it is absent or empty |
| ApiKeyMiddleware.ShouldSkip | PlantMonitor.Api/Middleware/ApiKeyAuthenticationMiddleware.cs:38-51 | an empty or missing path is skipped, and any other path is skipped exactly when it starts with one of the listed prefixes |
| ApiKeyMiddleware.LowerPath | PlantMonitor.Api/Middleware/ApiKeyAuthenticationMiddleware.cs:20 | the path is lower-cased, and a missing path stays missing |
| ApiKeyMiddleware.SkipIgnoresCase | PlantMonitor.Api/Middleware/ApiKeyAuthenticationMiddleware.cs:20-51 | a path that matches a skip prefix in any letter case is skipped |
| ApiKeyMiddleware.DevicePathsNotSkipped | PlantMonitor.Api/Middleware/ApiKeyAuthenticationMiddleware.cs:20-51 | every path under /api/v1/devices/ other than the register path, in any letter case, is not on the skip list, so the device routes are never skipped |
| ApiKeyMiddleware.ApiKey | PlantMonitor.Api/Middleware/ApiKeyAuthenticationMiddleware.cs:53-71 | a Bearer Authorization header supplies the key; otherwise the X-API-Key header does, and otherwise the apiKey query value |
| ApiKeyMiddleware.BearerWins | PlantMonitor.Api/Middleware/ApiKeyAuthenticationMiddleware.cs:56-60 | with a Bearer header, the other headers and the query string do not affect the key |
| ApiKeyMiddleware.DeviceIdOf | PlantMonitor.Api/Middleware/ApiKeyAuthenticationMiddleware.cs:73-95 | the route value wins; without it, a non-empty JSON body takes a non-empty X-Device-ID header and otherwise the deviceId query value; without a JSON body, the deviceId query value is used |
| ApiKeyMiddleware.Invoke | PlantMonitor.Api/Middleware/ApiKeyAuthenticationMiddleware.cs:17-36 | every request is forwarded to the next component unchanged, skipped or not |
| DeviceHandlers.AsWrittenName | PlantMonitor.Application/Features/Devices/Handlers/DeviceHandlers.cs:58 | as written, a missing device name becomes the fixed literal text, never derived from the device id |
| DeviceHandlers.AsWrittenNameIgnoresDeviceId | PlantMonitor.Application/Features/Devices/Handlers/DeviceHandlers.cs:58 | two devices registered without a name get the same name, which does not end with the id's last four characters |
| DeviceHandlers.IntendedName | PlantMonitor.Application/Features/Devices/Handlers/DeviceHandlers.cs:58 | the corrected default name ends with the id's last four characters, and fails exactly when the id is shorter than four |
| DeviceHandlers.IntendedNamesDistinguishDevices | PlantMonitor.Application/Features/Devices/Handlers/DeviceHandlers.cs:58 | with the corrected name, devices whose ids end differently get different names |
| DeviceHandlers.RegisteredDevice | PlantMonitor.Application/Features/Devices/Handlers/DeviceHandlers.cs:54-63 | the registered device belongs to the user, is Active and online, and was last seen now |
| DeviceHandlers.SaveRegistered | PlantMonitor.Application/Features/Devices/Handlers/DeviceHandlers.cs:65-73 | registration succeeds exactly when both the device row and its initial token fit; then both are appended; a refused token leaves the device saved, no token stored, and an error answer |
| DeviceHandlers.Registration | PlantMonitor.Application/Features/Devices/Handlers/DeviceHandlers.cs:34-80 | a known identifier is refused as already registered and an unknown email as user not found, both with nothing changed; a failing name is an internal error; otherwise the two saves run |
| DeviceHandlers.RegisterTwiceRefused | PlantMonitor.Application/Features/Devices/Handlers/DeviceHandlers.cs:38-44 | after a successful registration, registering the same identifier again is refused with nothing changed |
| DeviceHandlers.RegistrationSucceeds | PlantMonitor.Application/Features/Devices/Handlers/DeviceHandlers.cs:34-80 | with sound hashing, registration succeeds exactly when the id is new and at most 50 characters, the user exists, the name is at most 200 characters, and the token hash is new |
| DeviceHandlers.RegisteredAsWrittenHasLiteralName | PlantMonitor.Application/Features/Devices/Handlers/DeviceHandlers.cs:58-73 | a device registered as written without a name is stored with the literal placeholder name |
| DeviceHandlers.SaveRegisteredRows | PlantMonitor.Application/Features/Devices/Handlers/DeviceHandlers.cs:65-79 | the two saves on the context do what SaveRegistered describes |
| DeviceHandlers.SaveInitialToken | PlantMonitor.Application/Features/Devices/Handlers/DeviceHandlers.cs:67 | the "Initial Token" of a newly saved device is appended and the device returned with the registered message when the token row fits its constraints; otherwise the save fails with "Internal server error" and the token table is unchanged; one identity value is consumed and the context stays valid |
| DeviceHandlers.RegisterNamed | PlantMonitor.Application/Features/Devices/Handlers/DeviceHandlers.cs:34-80 | the handler on the context does what Registration describes, for any naming rule |
| DeviceHandlers.Register | PlantMonitor.Application/Features/Devices/Handlers/DeviceHandlers.cs:34-80 | RegisterDeviceHandler as written: Registration with the literal default name |
| DeviceHandlers.RegisterIntended | PlantMonitor.Application/Features/Devices/Handlers/DeviceHandlers.cs:34-80 | the corrected handler: Registration with the interpolated default name |
| DeviceHandlers.UserDevices | PlantMonitor.Application/Features/Devices/Handlers/DeviceHandlers.cs:94-104 | the list holds exactly the user's devices, each as often as stored, most recently seen first |
| DeviceHandlers.NeverSeenListedFirst | PlantMonitor.Application/Features/Devices/Handlers/DeviceHandlers.cs:99 | a device never seen is listed before every device that has been seen |
| DeviceHandlers.GetByDeviceId | PlantMonitor.Application/Features/Devices/Handlers/DeviceHandlers.cs:118-131 | the answer succeeds exactly when some device has the identifier and returns a stored device with it; otherwise "Device not found" |
| DeviceHandlers.GetById | PlantMonitor.Application/Features/Devices/Handlers/DeviceHandlers.cs:144-157 | the answer succeeds exactly when some device has the key and returns a stored device with it; otherwise "Device not found" |
| DeviceHandlers.GetConfig | PlantMonitor.Application/Features/Devices/Handlers/DeviceHandlers.cs:168-195 | an unknown device is "Device not found" exactly; a known one gets its identifier and name, and a plant section exactly when it has a plant, carrying that plant's name, type, thresholds, watering duration and auto-watering flag |
| DeviceHandlers.Updated | PlantMonitor.Application/Features/Devices/Handlers/DeviceHandlers.cs:217-232 | each non-empty field of the request replaces the device's, UpdatedAt becomes now, and nothing else changes |
| DeviceHandlers.UpdateIdempotent | PlantMonitor.Application/Features/Devices/Handlers/DeviceHandlers.cs:217-232 | applying the same update twice is applying it once |
| DeviceHandlers.EmptyUpdateOnlyStamps | PlantMonitor.Application/Features/Devices/Handlers/DeviceHandlers.cs:217-232 | an update with no non-empty field only sets UpdatedAt |
| DeviceHandlers.Update | PlantMonitor.Application/Features/Devices/Handlers/DeviceHandlers.cs:203-246 | an unknown key is "Device not found" with nothing changed; a name over 200 characters or a firmware version over 20 fails the save with nothing changed; otherwise only that device becomes its updated form |
| DeviceHandlers.StatusUpdated | PlantMonitor.Application/Features/Devices/Handlers/DeviceHandlers.cs:273-275 | the status update sets online, last seen and UpdatedAt, and nothing else |
| DeviceHandlers.UpdateStatus | PlantMonitor.Application/Features/Devices/Handlers/DeviceHandlers.cs:261-289 | an unknown device is "Device not found" with nothing changed; otherwise only that device gets the new status |
| DeviceHandlers.StatusVisibleAfterUpdate | PlantMonitor.Application/Features/Devices/Handlers/DeviceHandlers.cs:265-275 | after a status update, the lookup by identifier still finds the same row, now carrying the new status |
| DeviceClaim.Thresholds | PlantMonitor.Application/Features/Devices/Commands/ClaimDeviceCommand.cs:82-95 | every plant type gets a low threshold below its high one, within 15–40 and 50–80; an unlisted type gets 30/70 |
| DeviceClaim.WateringDurationFor | PlantMonitor.Application/Features/Devices/Commands/ClaimDeviceCommand.cs:97-105 | the duration is 5, 8 or 12 seconds: 5 exactly for snake plant and aloe vera, 12 exactly for peace lily and monstera |
| DeviceClaim.LookupsIgnoreCase | PlantMonitor.Application/Features/Devices/Commands/ClaimDeviceCommand.cs:82-105 | both lookups give the same answer for a type and its lower-case form |
| DeviceClaim.SnakePlantAnyCase | PlantMonitor.Application/Features/Devices/Commands/ClaimDeviceCommand.cs:84-101 | "Snake Plant" gets 20/60 and "SNAKE PLANT" 5 seconds |
| DeviceClaim.ClaimDevice | PlantMonitor.Application/Features/Devices/Commands/ClaimDeviceCommand.cs:27-44 | as written, a claim never succeeds: an unknown id is "Device not found…", and any known device is "already claimed" |
| DeviceClaim.FoundDeviceRefused | PlantMonitor.Application/Features/Devices/Commands/ClaimDeviceCommand.cs:41 | as written, every stored device is refused as already claimed, whatever its UserId |
| DeviceClaim.Claimed | PlantMonitor.Application/Features/Devices/Commands/ClaimDeviceCommand.cs:47-51 | a claimed device belongs to the user, is named after the plant and " Monitor", is Active, takes the location, is stamped now, and is otherwise unchanged |
| DeviceClaim.ClaimedPlant | PlantMonitor.Application/Features/Devices/Commands/ClaimDeviceCommand.cs:54-63 | the claim's plant has the request's name and type, the type's thresholds and duration, and auto-watering on |
| DeviceClaim.ClaimUnowned | PlantMonitor.Application/Features/Devices/Commands/ClaimDeviceCommand.cs:27-80 | corrected claim: unknown devices and owned devices are refused with nothing changed; an unowned device is claimed and its plant added in one save; when the device name, the plant name (200) or the plant type (100) exceeds its column, or the plant breaks the one-plant-per-device index, the save fails, the answer is "An error occurred: " and the exception message, and nothing changes |
| DeviceClaim.ClaimTwice | PlantMonitor.Application/Features/Devices/Commands/ClaimDeviceCommand.cs:41-66 | with the corrected guard, after one successful claim a second claim of the same device is refused |
| ManualWateringHandler.Target | PlantMonitor.Application/Features/Plants/Commands/ManualWateringCommand.cs:29-31 | the plant found has the id and its device row; none is found exactly when no plant with the id has a device |
| ManualWateringHandler.Duration | PlantMonitor.Application/Features/Plants/Commands/ManualWateringCommand.cs:43 | the requested duration wins, and otherwise the plant's own duration is used |
| ManualWateringHandler.Handle | PlantMonitor.Application/Features/Plants/Commands/ManualWateringCommand.cs:25-59 | an unknown plant is "Plant not found" and an offline device is refused, both with nothing queued; otherwise exactly one Pending ManualWatering command with the duration parameters, priority 3 and a five-minute expiry is appended for the plant's device, and its id is reported |
| ManualWateringHandler.QueuedCommandIsPollable | PlantMonitor.Application/Features/Plants/Commands/ManualWateringCommand.cs:46-51 | the queued command is pollable by its device for the five minutes until it expires |
| WateringEventHandlers.PlantKeyOf | PlantMonitor.Application/Features/WateringEvents/Handlers/WateringEventHandlers.cs:47 | the plant key is that of a plant of the device, and is missing exactly when the device has no plant |
| WateringEventHandlers.Recorded | PlantMonitor.Application/Features/WateringEvents/Handlers/WateringEventHandlers.cs:44-57 | the recorded event copies the request's fields, on the device's key and its plant's key |
| WateringEventHandlers.RecordEvent | PlantMonitor.Application/Features/WateringEvents/Handlers/WateringEventHandlers.cs:31-73 | an unknown device is "Device not found" with nothing stored; otherwise exactly the recorded event is appended and returned |
| WateringEventHandlers.History | PlantMonitor.Application/Features/WateringEvents/Handlers/WateringEventHandlers.cs:97-109 | the history holds min(100, qualifying) of the device's events within the bounds, each at most as often as stored, newest first; all of them when they fit, and any left out are no newer than those shown |
| WateringEventHandlers.GetHistory | PlantMonitor.Application/Features/WateringEvents/Handlers/WateringEventHandlers.cs:87-113 | an unknown device is "Device not found", and a known one gets its history |
| WateringEventHandlers.UnboundedHistoryKeepsAll | PlantMonitor.Application/Features/WateringEvents/Handlers/WateringEventHandlers.cs:97-109 | without bounds, and with at most 100 events, each of the device's events is listed |
| WateringEventHandlers.LatestEvent | PlantMonitor.Application/Features/WateringEvents/Handlers/WateringEventHandlers.cs:128-131 | the latest event is one of the device's events with no later one, and is missing exactly when the device has none |
| WateringEventHandlers.GetLatest | PlantMonitor.Application/Features/WateringEvents/Handlers/WateringEventHandlers.cs:118-140 | an unknown device is "Device not found"; a known one gets one of its own events with no later event of that device, and "No watering events found" exactly when it has none |
| WateringEventHandlers.RecordedIsLatest | PlantMonitor.Application/Features/WateringEvents/Handlers/WateringEventHandlers.cs:128-131 | an event later than all of the device's earlier ones becomes its latest |
| WateringEventHandlers.TriggerDuration | PlantMonitor.Application/Features/WateringEvents/Handlers/WateringEventHandlers.cs:176 | the requested duration wins, then the plant's duration, then the default |
| WateringEventHandlers.Triggered | PlantMonitor.Application/Features/WateringEvents/Handlers/WateringEventHandlers.cs:179-188 | the triggered event is Manual, timestamped now, and successful, with the given duration and the fixed note |
| WateringEventHandlers.TriggerWatering | PlantMonitor.Application/Features/WateringEvents/Handlers/WateringEventHandlers.cs:156-203 | an unknown device key is "Device not found" with nothing stored; otherwise exactly the triggered event is appended and its duration reported |
| WateringEventHandlers.TriggerThenLatest | PlantMonitor.Application/Features/WateringEvents/Handlers/WateringEventHandlers.cs:118-196 | after a successful trigger, the device's latest event is found |
| SensorDataHandlers.Reading | PlantMonitor.Application/Features/SensorData/Handlers/SensorDataHandlers.cs:50-60 | the stored reading copies the request's measurements onto the device's key |
| SensorDataHandlers.NewAlerts | PlantMonitor.Application/Features/SensorData/Handlers/SensorDataHandlers.cs:76-125 | a reading raises at most one low-water alert and one critical-moisture alert, each exactly when its threshold is crossed and none of its type is open; severities and titles as in the source |
| SensorDataHandlers.NewAlertsKeepOneOpen | PlantMonitor.Application/Features/SensorData/Handlers/SensorDataHandlers.cs:79-109 | if at most one alert per type was open, the same holds after the new alerts are added |
| SensorDataHandlers.RepeatedReadingRaisesNoDuplicate | PlantMonitor.Application/Features/SensorData/Handlers/SensorDataHandlers.cs:79-109 | a second reading right after the first raises no alert of a type the first one raised |
| SensorDataHandlers.PlantOf | PlantMonitor.Application/Features/SensorData/Handlers/SensorDataHandlers.cs:39 | the plant loaded is a plant of the device, and none exactly when it has none |
| SensorDataHandlers.CheckAndCreateAlerts | PlantMonitor.Application/Features/SensorData/Handlers/SensorDataHandlers.cs:76-125 | the alert table grows by exactly the new alerts, numbered from the next ids |
| SensorDataHandlers.RecordSensorData | PlantMonitor.Application/Features/SensorData/Handlers/SensorDataHandlers.cs:34-74 | an unknown device is "Device not found" with nothing changed; otherwise the device is marked online and seen, the reading appended and returned, and the alerts it raises appended |
| SensorDataHandlers.LatestReading | PlantMonitor.Application/Features/SensorData/Handlers/SensorDataHandlers.cs:149-152 | the latest reading is a valid reading of the device with no later valid one, and is missing exactly when the device has none |
| SensorDataHandlers.GetLatest | PlantMonitor.Application/Features/SensorData/Handlers/SensorDataHandlers.cs:139-161 | an unknown device is "Device not found"; a known one gets one of its own valid readings with no later valid reading of that device, and "No sensor data found" exactly when it has none |
| SensorDataHandlers.History | PlantMonitor.Application/Features/SensorData/Handlers/SensorDataHandlers.cs:184-191 | the history holds min(1000, qualifying) of the device's valid readings in [from, to], each at most as often as stored, newest first; all of them when they fit, and any left out are no newer than those shown |
| SensorDataHandlers.GetHistory | PlantMonitor.Application/Features/SensorData/Handlers/SensorDataHandlers.cs:174-195 | an unknown device is "Device not found", and a known one gets its history |
| SensorDataHandlers.EmptyWindowIsEmpty | PlantMonitor.Application/Features/SensorData/Handlers/SensorDataHandlers.cs:186 | a window whose end is before its start yields no readings |
| PlantHandlers.CreatedPlant | PlantMonitor.Application/Features/Plants/Handlers/PlantHandlers.cs:48-60 | the new plant takes every field of the request, on the given device, and has no picture and no update time |
| PlantHandlers.Create | PlantMonitor.Application/Features/Plants/Handlers/PlantHandlers.cs:30-75 | an unknown device is "Device not found", and a device that has a plant is refused, both with nothing changed; otherwise the plant is appended and returned when its name fits 200 and its type 100 characters, and when one does not the save fails with "Internal server error" and nothing changes |
| PlantHandlers.AddPlant | PlantMonitor.Infrastructure/Data/Configurations/EntityConfigurations.cs:94-95 | appending a plant for a device without one keeps the one-plant-per-device index, and the device's plant is the new one |
| PlantHandlers.GetByDevice | PlantMonitor.Application/Features/Plants/Handlers/PlantHandlers.cs:89-101 | the answer succeeds exactly when the device has a plant and returns that device's plant; otherwise "Plant not found" |
| PlantHandlers.GetById | PlantMonitor.Application/Features/Plants/Handlers/PlantHandlers.cs:207-219 | the answer succeeds exactly when a plant has the key and returns it; otherwise "Plant not found" |
| PlantHandlers.CreatedPlantIsLoaded | PlantMonitor.Application/Features/Plants/Handlers/PlantHandlers.cs:43-63 | the plant just created is the one the device lookup returns |
| PlantHandlers.Updated | PlantMonitor.Application/Features/Plants/Handlers/PlantHandlers.cs:122-157 | each non-empty string or present value of the request replaces the plant's, UpdatedAt becomes now, and nothing else changes |
| PlantHandlers.UpdateIdempotent | PlantMonitor.Application/Features/Plants/Handlers/PlantHandlers.cs:122-157 | applying the same update twice is applying it once |
| PlantHandlers.UpdateKeepsPlantsValid | PlantMonitor.Application/Features/Plants/Handlers/PlantHandlers.cs:122-157 | an update never moves a plant to another device, so one plant per device still holds, and an updated row whose name and type fit their columns keeps the plant table valid |
| PlantHandlers.Update | PlantMonitor.Application/Features/Plants/Handlers/PlantHandlers.cs:109-171 | an unknown plant is "Plant not found" with nothing changed; otherwise only that plant becomes its updated form and is returned, unless its name exceeds 200 or its type 100 characters, in which case the save fails with "Internal server error" and nothing changes |
| PlantHandlers.Without | PlantMonitor.Application/Features/Plants/Handlers/PlantHandlers.cs:190 | removing a plant removes exactly that row |
| PlantHandlers.Delete | PlantMonitor.Application/Features/Plants/Handlers/PlantHandlers.cs:178-202 | an unknown plant is "Plant not found"; a plant with watering events fails the restricting key with nothing changed; otherwise exactly that plant is removed |
| PlantHandlers.DeleteFreesDevice | PlantMonitor.Application/Features/Plants/Handlers/PlantHandlers.cs:190-191 | after deletion the device has no plant, and one plant per device still holds |
| AlertHandlers.CreatedAlert | PlantMonitor.Application/Features/Alerts/Handlers/AlertHandlers.cs:32-40 | the alert takes the request's type, severity, title and message, on the device's key, unresolved |
| AlertHandlers.Create | PlantMonitor.Application/Features/Alerts/Handlers/AlertHandlers.cs:20-55 | an unknown device is "Device not found" with nothing stored; otherwise exactly the created alert is appended and returned |
| AlertHandlers.CreatedAlertSilencesRule | PlantMonitor.Application/Features/Alerts/Handlers/AlertHandlers.cs:32-43 | a hand-made alert counts as open for its type, so the sensor rule for that type stays quiet |
| AlertHandlers.UserAlerts | PlantMonitor.Application/Features/Alerts/Handlers/AlertHandlers.cs:69-86 | the list holds exactly the alerts of the user's devices, unresolved only unless asked otherwise, each as often as stored, newest first |
| AlertHandlers.ResolvedOnlyAdds | PlantMonitor.Application/Features/Alerts/Handlers/AlertHandlers.cs:75-78 | including resolved alerts only adds resolved ones: the unresolved list is the full list's unresolved part |
| AlertHandlers.AlertIndex | PlantMonitor.Application/Features/Alerts/Handlers/AlertHandlers.cs:104-105 | the lookup by id finds that alert, and finds nothing exactly when no alert has the id |
| AlertHandlers.Resolved | PlantMonitor.Application/Features/Alerts/Handlers/AlertHandlers.cs:112-114 | a resolved alert is marked resolved now by the user, and is otherwise unchanged |
| AlertHandlers.Resolve | PlantMonitor.Application/Features/Alerts/Handlers/AlertHandlers.cs:100-127 | an unknown alert is "Alert not found"; a resolver who is not a user fails the save; otherwise only that alert is resolved |
| AlertHandlers.ResolvingReopensRule | PlantMonitor.Application/Features/Alerts/Handlers/AlertHandlers.cs:112-114 | resolving the one open alert of a type leaves none open, so the sensor rule can fire again |
| AlertHandlers.ResolveTwice | PlantMonitor.Application/Features/Alerts/Handlers/AlertHandlers.cs:112-114 | resolving again only replaces the resolution time and resolver |
| AuthHandlers.RegisterUser | PlantMonitor.Application/Features/Auth/Handlers/AuthHandlers.cs:20-58 | an email equal to a stored one up to ASCII letter case is refused as a duplicate; identity errors are joined with ", " into the error; both change nothing; otherwise exactly the new user is appended and returned, unless the email (also the user name) exceeds 256, a first or last name 100 or the time zone 50 characters, in which case the create fails with "Internal server error" and nothing changes |
| AuthHandlers.RegisterUserTwice | PlantMonitor.Application/Features/Auth/Handlers/AuthHandlers.cs:24-27 | after a successful registration, a second with the same email in any letter case is refused |
| AuthHandlers.GenerateDeviceToken | PlantMonitor.Application/Features/Auth/Handlers/AuthHandlers.cs:67-90 | an unknown device is "Device not found" with nothing stored; otherwise the secret is returned when the token row fits and the save fails otherwise |
| AuthHandlers.ValidateDeviceToken | PlantMonitor.Application/Features/Auth/Handlers/AuthHandlers.cs:106-125 | the answer is always a success; an unknown device is false with no token changed; a known one is true exactly when a stored token accepts the secret, and then only the first accepting token gets LastUsedAt, otherwise nothing changes |
| AuthHandlers.GenerateThenValidate | PlantMonitor.Application/Features/Auth/Handlers/AuthHandlers.cs:67-125 | a token generated through the handler then validates through the handler |
| DeviceValidators.PatternAcceptsTrailingLineFeed | PlantMonitor.Application/Validators/DeviceValidators.cs:13 | the pattern accepts every strictly formatted id, and besides those only such an id followed by one line feed |
| DeviceValidators.LineFeedIdentifierAccepted | PlantMonitor.Application/Validators/DeviceValidators.cs:13 | "PM-A1\n" passes the pattern but is not strictly formatted |
| DeviceValidators.RegisterErrors | PlantMonitor.Application/Validators/DeviceValidators.cs:10-24 | there are no errors exactly when the id is non-blank and of the right form, the email is non-blank and valid, and a given name is at most 100 characters |
| DeviceValidators.StrictIdentifiersAreHex | PlantMonitor.Application/Validators/DeviceValidators.cs:10-14 | under the corrected rule, an accepted id is "PM-" and one or more upper-case hexadecimal digits |
| DeviceValidators.RegisterAcceptsLineFeed | PlantMonitor.Application/Validators/DeviceValidators.cs:10-14 | the rules as written accept "PM-A1\n", and the corrected rules refuse it |
| DeviceValidators.ValidIdentifierNamesSafely | PlantMonitor.Application/Validators/DeviceValidators.cs:10-14 | an accepted id has at least four characters, so the interpolated default name never throws |
| DeviceValidators.ValidNameFitsColumn | PlantMonitor.Application/Validators/DeviceValidators.cs:22-24 | an accepted registration's name fits the 200-character column |
| DeviceValidators.UpdateValidation | PlantMonitor.Application/Validators/DeviceValidators.cs:32-44 | there are no errors exactly when the id is positive and any non-empty name and location are at most 100 and 200 characters |
| DeviceValidators.ValidUpdateFitsColumn | PlantMonitor.Application/Validators/DeviceValidators.cs:36-39 | an accepted update never makes the device name overflow its column |
| DeviceValidators.ValidUpdateMayOverflowFirmware | PlantMonitor.Application/Validators/DeviceValidators.cs:28-45 | the update rules accept a request whatever its firmware version, so an accepted update can carry one longer than the 20-character column |
| PlantValidators.CreateValidation | PlantMonitor.Application/Validators/PlantValidators.cs:10-41 | there are no errors exactly when the device key is positive, name and type are non-blank and at most 100 characters, thresholds are in 10–50 and 60–90, duration is in 5–60 s, and a given age is positive |
| PlantValidators.AcceptedThresholdsOrdered | PlantMonitor.Application/Validators/PlantValidators.cs:26-32 | an accepted plant's low threshold is at least ten points below its high one |
| PlantValidators.ClaimDefaultsPassCreateRules | PlantMonitor.Application/Validators/PlantValidators.cs:26-36 | a claim's low threshold and duration always pass the create rules, and its high threshold passes exactly when the type is not aloe vera |
| PlantValidators.AloeVeraClaimRefusedByCreate | PlantMonitor.Application/Validators/PlantValidators.cs:30-32 | a plant configured as a claim configures an aloe vera fails the high-threshold rule |
| SensorDataValidators.RecordValidation | PlantMonitor.Application/Validators/SensorDataValidators.cs:10-31 | there are no errors exactly when the id is non-blank, soil and water are 0–100 %, a given temperature is −50–100 °C, and the timestamp is set and at most five minutes past the validator's construction |
| SensorDataValidators.MoistureAlertReachable | PlantMonitor.Application/Validators/SensorDataValidators.cs:14-15 | with the lowest allowed threshold (10) no accepted reading raises a moisture alert; above it, a dry reading does unless one is open |
| SensorDataValidators.EmptyTankIsCritical | PlantMonitor.Application/Validators/SensorDataValidators.cs:18-20 | an accepted reading with an empty tank raises a Critical low-water alert unless one is open |
| Sequences.Filter | PlantMonitor.Infrastructure/Services/DeviceCommandsService.cs:38-40 | Where keeps exactly the elements satisfying the condition, no more often than stored |
| Sequences.Indexed | PlantMonitor.Infrastructure/Services/DeviceCommandsService.cs:47-50 | each row is paired with its own position, so the rows a query read can be updated |
| Sequences.FirstIndex | PlantMonitor.Infrastructure/Services/DeviceCommandsService.cs:63 | FirstOrDefault finds the first element satisfying the condition, and nothing exactly when none does |
| Sequences.Take | PlantMonitor.Infrastructure/Services/DeviceCommandsService.cs:43 | Take keeps a prefix of min(n, length) elements, none for a negative n |
| Sequences.SortBy | PlantMonitor.Infrastructure/Services/DeviceCommandsService.cs:41-42 | OrderBy returns a sorted permutation of its input |
| Sequences.Query | PlantMonitor.Infrastructure/Services/DeviceCommandsService.cs:38-44 | Where, OrderBy and Take return sorted qualifying rows, all of them when they fit; a qualifying row left out sorts after every row returned |
| Sequences.QueryKeepsAll | PlantMonitor.Application/Features/WateringEvents/Handlers/WateringEventHandlers.cs:97-109 | when at most n rows qualify, each of them is returned |
| Sequences.IndexedFilter | PlantMonitor.Infrastructure/Services/DeviceCommandsService.cs:38-50 | the rows Where keeps from an indexed table name their own positions, and are exactly the qualifying ones |
| Text.TrimStart | PlantMonitor.Infrastructure/Authentication/DeviceApiKeyAuthenticationHandler.cs:38 | TrimStart drops a blank prefix and leaves a suffix that does not start with white space |
| Text.TrimEnd | PlantMonitor.Infrastructure/Authentication/DeviceApiKeyAuthenticationHandler.cs:38 | TrimEnd drops a blank suffix and leaves a prefix that does not end with white space |
| Text.Trim | PlantMonitor.Infrastructure/Authentication/DeviceApiKeyAuthenticationHandler.cs:38 | the trimmed token neither starts nor ends with white space |
| Text.TrimSurroundedByBlanks | PlantMonitor.Infrastructure/Authentication/DeviceApiKeyAuthenticationHandler.cs:38 | the input is the trimmed token with only white space before and after it |
| Text.TrimmedWithin | PlantMonitor.Api/Middleware/ApiKeyAuthenticationMiddleware.cs:59 | the trimmed token occurs in the header with only white space around it |
| Text.ToLower | PlantMonitor.Api/Middleware/ApiKeyAuthenticationMiddleware.cs:20 | lower-casing keeps the length and lowers each letter alone |
| Text.ToLowerIdempotent | PlantMonitor.Application/Features/Devices/Commands/ClaimDeviceCommand.cs:84 | lower-casing twice is lower-casing once |
| Text.ToUpper | PlantMonitor.Application/Features/Auth/Handlers/AuthHandlers.cs:24 | upper-casing keeps the length and upper-cases each ASCII letter alone |
| Text.ToUpperIgnoresCase | PlantMonitor.Application/Features/Auth/Handlers/AuthHandlers.cs:24 | two strings that differ only in the case of their ASCII letters upper-case to the same string |
| Text.ReplaceChar | src/PlantMonitor.Infrastructure/Services/DeviceProvisioningService.cs:94-96 | Replace changes exactly the given character everywhere and keeps the length |
| Text.RemoveChar | src/PlantMonitor.Infrastructure/Services/DeviceProvisioningService.cs:97 | removing a character drops exactly its occurrences: the result's multiset is the input's with that character's count set to zero, and an input without the character is returned unchanged |
| Text.RemoveCharConcat | src/PlantMonitor.Infrastructure/Services/DeviceProvisioningService.cs:97 | removal distributes over concatenation, so the remaining characters keep their order |
| Text.LastChars | src/PlantMonitor.Infrastructure/Services/DeviceProvisioningService.cs:46 | Substring(Length − n) is the last n characters, and throws ArgumentOutOfRange exactly when the string is shorter |
| Text.NatToString | PlantMonitor.Application/Features/Plants/Commands/ManualWateringCommand.cs:53 | a number prints as one or more decimal digits, without a leading zero, whose decimal value is the number |
| Text.IntToString | PlantMonitor.Application/Features/Plants/Commands/ManualWateringCommand.cs:53 | an integer prints as its decimal digits, preceded by "-" exactly when it is negative |
| Text.IntToStringInjective | PlantMonitor.Application/Features/WateringEvents/Handlers/WateringEventHandlers.cs:196 | two integers that print alike are equal, so the duration and command id in a message determine the values |
| Text.Join | PlantMonitor.Infrastructure/Authentication/DeviceApiKeyAuthenticationHandler.cs:32 | joining no parts gives "", one part gives that part, and the join starts with the first part |
| Text.JoinAppend | PlantMonitor.Infrastructure/Authentication/DeviceApiKeyAuthenticationHandler.cs:32 | appending a part to a non-empty list appends the separator and that part to the join |
| Text.JoinCons | PlantMonitor.Infrastructure/Authentication/DeviceApiKeyAuthenticationHandler.cs:32 | the join of a part followed by a non-empty list is that part, the separator, and the join of the list |

## Left out

- Logging, the `IMapper` DTO mapping and JSON serialisation are not modelled. The only JSON kept is the manual-watering parameter text. Handlers return entities where the source returns DTOs.
- Exception messages are not reproduced. A fault is named by its .NET exception type, and the provisioning refusal carries that stand-in as its message.
- Better-auth sessions, the remaining controllers, the notification service and the background `CommandCleanupService` loop are not part of this model. The sweep it runs is `CommandQueue.Sweep`.
- Request headers are a map from the canonical header name to its values. Header-name case folding and the ASP.NET header collection are not modelled.
- EF `Include` and navigation loading are modelled as lookups by key. Lazy loading, change tracking beyond the rows written, and transactions across `SaveChanges` calls are not modelled. Concurrency and cancellation tokens are not modelled either.
- ASP.NET Identity's `UserManager`: its password and user-name checks are not modelled. `AuthHandlers.RegisterUser` takes the error descriptions it would report as a parameter.
- AuthHandlers.RegisterUser: the identity store's email normaliser is modelled as ASCII upper-casing. Unicode normalisation and the upper-casing of non-ASCII letters are not modelled.
- FluentValidation's `EmailAddress()` is a parameter (`isEmail`). The library's own rule is not reproduced.
- Column limits: the model keeps the device identifier (50), the device name (200), the firmware version (20), the token hash (128), the plant name (200) and type (100), and the user's email and user name (256), first and last names (100) and time zone (50). Readings and watering levels are `real`. These limits a handler can also break are not modelled, so the model lets those saves succeed:
  - the device location (200), which the corrected claim sets unchecked and the update leaves to its validator;
  - the plant species (200) and notes (1000), on plant create and update;
  - the watering event's failure reason (500) and notes (1000), and the `decimal(5,2)` precision of readings and watering levels;
  - the alert title (200) and message (1000), on alert create;
  - the token name (100), on token generation.
- Store.Database.NewId: one counter serves every table, while PostgreSQL gives each table its own identity column. Which key a row gets therefore differs from the source's numbering: device and plant keys, the `plantId` of a claim's answer and the "Command ID" of the manual-watering message carry the model's shared sequence. The model relies only on each handed-out value being new.
- Foreign keys are only checked where a handler depends on them: the token's device, the alert resolver, and the watering event's restricting plant key. The other foreign keys are not modelled.
- The `Executing` command status is declared but no core code sets it, so no operation moves to it.
- `IApplicationDbContext` in the source has no `DeviceCommands` set. The model gives the manual-watering handler the command table, as the concrete context does.
- Hash functions: nothing assumes SHA-256 or BCrypt to be injective. Round trips need only `Crypto.Primitives.Sound()`.
- Text.Trim: its own contract only says the result has no white space at either end. That the input is the result with white space around it is stated in `Text.TrimSurroundedByBlanks`.
- Text.ToLower: only ASCII letters are lowered. Non-ASCII letters and culture-specific casing are not modelled.
- Text.ToUpper: only ASCII letters are upper-cased, as for `Text.ToLower`.
- Text.Join: its own contract covers no part and one part. The cases with more parts are stated in `Text.JoinAppend` and `Text.JoinCons`.
- DeviceAuthentication.Authenticate: the source tests the `Bearer ` prefix with the culture-sensitive `StartsWith(string)`. The model compares characters ordinally.
- SensorDataValidators.RecordValidation: the future limit is measured from `builtAt`, the moment the validator object was built, as the source's field initialiser does. It is not measured from the moment of the request.
- Clocks and random number generators are parameters (`now`, `randomBytes`, `salt`).

Notes on behaviour the model keeps as written, without counting it as a defect:

- The alert messages at `SensorDataHandlers.cs:93` and `:117` lack the `$` of an interpolated string. The stored messages are the literal template text.
- The provisioned-token check verifies with BCrypt, while `DeviceTokenService` stores SHA-256 hashes. A device that only has service-issued tokens makes the check throw (`Provisioning.ShaTokensNeverValidate`). The check also ignores `ExpiresAt` (`Provisioning.ProvisionedCheckIgnoresExpiry`).
- The register validator does not enforce the 50-character identifier column. An id that is too long fails the save instead.
- A claim's aloe vera thresholds (15/50) would fail the create rule for the high threshold (`PlantValidators.AloeVeraClaimRefusedByCreate`).
- The temperature message keeps the double-encoded degree sign of its source file.
- The user's device list puts never-seen devices first, as PostgreSQL orders NULL first for a descending sort (`DeviceHandlers.NeverSeenListedFirst`). The source's database may differ.
- The API-key middleware computes its skip decision but forwards every request (`ApiKeyMiddleware.Invoke`).
- A command whose expiry is exactly now is neither polled nor swept (`CommandQueue.ExpiringNowIsInLimbo`).

## Findings

| source | as written | input that shows it | evidently intended | confidence | as-written member | corrected member |
|---|---|---|---|---|---|---|
| PlantMonitor.Infrastructure/Services/DeviceCommandsService.cs:41 | `OrderBy(c => c.Priority)` serves the smallest number first, while `DeviceCommand.cs:17` defines 1 = Low and 3 = High | a pending priority-3 command and a pending priority-1 command for one device: the poll returns the priority-1 command first | highest priority first (`OrderByDescending`) | not executed | CommandQueue.PollServesLowPriorityFirst | CommandQueue.UrgentSelectionServesHighFirst |
| PlantMonitor.Application/Validators/DeviceValidators.cs:13 | .NET's `$` also matches before a final line feed, so `^PM-[A-F0-9]+$` accepts an id ending in "\n" | DeviceId "PM-A1\n" passes validation and is registered with the line feed | only "PM-" and hexadecimal digits (`\z`) | not executed | DeviceValidators.RegisterAcceptsLineFeed | DeviceValidators.StrictIdentifiersAreHex |
| PlantMonitor.Application/Features/Devices/Handlers/DeviceHandlers.cs:58 | the fallback name lacks `$`, so every unnamed device is called "Plant Monitor {request.DeviceId[^4..]}" literally | registering "PM-00AB12" and "PM-00CD34" without names gives both the same literal name | "Plant Monitor " and the id's last four characters, as provisioning does | not executed | DeviceHandlers.AsWrittenNameIgnoresDeviceId | DeviceHandlers.IntendedNamesDistinguishDevices |
| PlantMonitor.Application/Features/Devices/Commands/ClaimDeviceCommand.cs:41 | `device.UserId != null` compares a non-nullable `long` with null, so it is always true and every claim is refused | claiming any stored device, such as a factory-provisioned one (UserId 1), answers "Device is already claimed by another user." | refuse only a device that already has an owner; UserId is a non-nullable foreign key to Users, so no stored device lacks one, and the corrected member's reading of "no owner" as UserId 0 is a guess | not executed | DeviceClaim.FoundDeviceRefused | DeviceClaim.ClaimTwice |
