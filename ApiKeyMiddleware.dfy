/**
 * ApiKeyAuthenticationMiddleware: works out whether a request needs a key and
 * looks for one, but passes every request on to the next stage whatever it finds.
 */
module ApiKeyMiddleware {
  import opened Wrappers
  import opened Text
  import opened DeviceAuthentication

  /** The parts of an HTTP request the middleware reads. */
  datatype Request = Request(
    path: Option<string>,
    headers: Headers,
    query: map<string, seq<string>>,
    routeValues: map<string, Option<string>>,
    hasJsonContentType: bool,
    contentLength: Option<int>)

  /** StringValues.FirstOrDefault(): the first value sent under `name`, if any. */
  function FirstValue(values: map<string, seq<string>>, name: string): (r: Option<string>)
    ensures r.Some? <==> name in values && |values[name]| > 0
    ensures r.Some? ==> r.value == values[name][0]
  {
    if name in values && |values[name]| > 0 then Some(values[name][0]) else None
  }

  const SkipPaths: seq<string> := ["/api/v1/auth/", "/swagger", "/health", "/api/v1/devices/register"]

  /** ShouldSkipApiKeyValidation, given the lower-cased path. */
  function ShouldSkip(path: Option<string>): (r: bool)
    ensures path.None? || path == Some("") ==> r
    ensures path.Some? && path.value != "" ==>
              (r <==> exists k :: 0 <= k < |SkipPaths| && StartsWith(path.value, SkipPaths[k]))
  {
    match path
    case None => true
    case Some(s) => s == "" || exists k :: 0 <= k < |SkipPaths| && StartsWith(s, SkipPaths[k])
  }

  function LowerPath(path: Option<string>): (r: Option<string>)
    ensures r.Some? <==> path.Some?
    ensures path.Some? ==> r.value == ToLower(path.value)
  {
    match path
    case None => None
    case Some(s) => Some(ToLower(s))
  }

  /** Lower-casing makes the exemptions blind to the case of the path. */
  lemma SkipIgnoresCase(path: string, k: nat)
    requires k < |SkipPaths| && StartsWith(ToLower(path), SkipPaths[k])
    ensures ShouldSkip(LowerPath(Some(path)))
  {
  }

  /**
   * The device endpoints are not exempt, in any spelling of their path: only the
   * registration endpoint under /api/v1/devices/ skips the key check.
   */
  lemma DevicePathsNotSkipped(path: string)
    requires StartsWith(ToLower(path), "/api/v1/devices/")
    requires !StartsWith(ToLower(path), "/api/v1/devices/register")
    ensures !ShouldSkip(LowerPath(Some(path)))
  {
    var lowered := ToLower(path);
    var devices := "/api/v1/devices/";
    assert lowered[..|devices|] == devices;
    assert lowered[1] == devices[1] == 'a';
    assert lowered[8] == devices[8] == 'd';
    DiffersAt(lowered, SkipPaths[0], 8);
    DiffersAt(lowered, SkipPaths[1], 1);
    DiffersAt(lowered, SkipPaths[2], 1);
  }

  lemma DiffersAt(s: string, prefix: string, i: nat)
    requires i < |prefix| && i < |s| && s[i] != prefix[i]
    ensures !StartsWith(s, prefix)
  {
  }

  /** GetApiKeyFromRequest: a Bearer secret first, then X-API-Key, then the `apiKey` query value. */
  function ApiKey(req: Request): (r: Option<string>)
    ensures var auth := FirstValue(req.headers, "Authorization");
            auth.Some? && StartsWith(auth.value, BearerPrefix) ==> r == Some(BearerSecret(auth.value))
    ensures var auth := FirstValue(req.headers, "Authorization");
            !(auth.Some? && StartsWith(auth.value, BearerPrefix)) ==>
              r == (var header := FirstValue(req.headers, "X-API-Key");
                    if header.Some? && header.value != "" then header else FirstValue(req.query, "apiKey"))
  {
    var auth := FirstValue(req.headers, "Authorization");
    if auth.Some? && auth.value != "" && StartsWith(auth.value, BearerPrefix) then Some(BearerSecret(auth.value))
    else
      var header := FirstValue(req.headers, "X-API-Key");
      if header.Some? && header.value != "" then header
      else FirstValue(req.query, "apiKey")
  }

  /** A well-formed Authorization header takes precedence over every other place a key may be. */
  lemma BearerWins(req: Request, headers: Headers, query: map<string, seq<string>>)
    requires var auth := FirstValue(req.headers, "Authorization"); auth.Some? && StartsWith(auth.value, BearerPrefix)
    requires "Authorization" in headers && headers["Authorization"] == req.headers["Authorization"]
    ensures ApiKey(req.(headers := headers, query := query)) == ApiKey(req)
  {
  }

  /**
   * GetDeviceIdFromRequest: the route value, else X-Device-ID on a JSON request with a
   * body, else the `deviceId` query value. Nothing in the middleware calls it.
   */
  function DeviceIdOf(req: Request): (r: Option<string>)
    ensures "deviceId" in req.routeValues ==> r == req.routeValues["deviceId"]
    ensures "deviceId" !in req.routeValues && !(req.hasJsonContentType && req.contentLength.Some? && req.contentLength.value > 0) ==>
              r == FirstValue(req.query, "deviceId")
    ensures "deviceId" !in req.routeValues && req.hasJsonContentType && req.contentLength.Some? && req.contentLength.value > 0 ==>
              r == (var header := FirstValue(req.headers, "X-Device-ID");
                    if header.Some? && header.value != "" then header else FirstValue(req.query, "deviceId"))
  {
    if "deviceId" in req.routeValues then req.routeValues["deviceId"]
    else
      var header := if req.hasJsonContentType && req.contentLength.Some? && req.contentLength.value > 0
                    then FirstValue(req.headers, "X-Device-ID") else None;
      if header.Some? && header.value != "" then header
      else FirstValue(req.query, "deviceId")
  }

  /** What the middleware does with a request: hand it to the next stage. */
  datatype Disposition = Forward(request: Request)

  /** InvokeAsync: every path through it forwards the request unchanged. */
  function Invoke(req: Request): (r: Disposition)
    ensures r == Forward(req)
  {
    if ShouldSkip(LowerPath(req.path)) then Forward(req)
    else
      var key := ApiKey(req);
      if key.None? || key.value == "" then Forward(req)
      else Forward(req)
  }
}
