/**
 * The plugin's standalone Express backend (dist/sandbox/backend/dev-server.js):
 * configuration defaults, the CORS origin rule, the mock-authentication
 * middleware, `/health` and the error handler. Express itself, the listener
 * and logging are not modelled; requests are values.
 */
module DevServer {
  import opened Common
  import opened Js

  /** The configuration after destructuring with defaults */
  datatype DevServerConfig = DevServerConfig(port: Value, frontendUrl: Value, coreApiUrl: Value, mockUser: Value)

  const DefaultPort := 4001
  const DefaultFrontendUrl := "http://localhost:5182"
  const DefaultCoreApiUrl := "http://localhost:3000"
  const DefaultMockUser := Obj(map[
    "id" := Num(1),
    "email" := Str("dev@example.com"),
    "name" := Str("Developer"),
    "workspaceId" := Num(1),
    "role" := Str("admin")])

  /** A destructuring default: applied only when the property is `undefined` (not for `null`, `0` or "") */
  function Defaulted(v: Value, d: Value): (r: Value)
    ensures v.Undefined? ==> r == d
    ensures !v.Undefined? ==> r == v
  {
    if v.Undefined? then d else v
  }

  /** `createDevServer(config = {})`'s destructuring; None where it throws (a `null` config) */
  function ResolveConfig(config: Value): (r: Option<DevServerConfig>)
    ensures r.None? <==> config.Null?
    ensures r.Some? ==>
      r.value.port == Defaulted(Get(config, "port"), Num(DefaultPort)) &&
      r.value.frontendUrl == Defaulted(Get(config, "frontendUrl"), Str(DefaultFrontendUrl)) &&
      r.value.coreApiUrl == Defaulted(Get(config, "coreApiUrl"), Str(DefaultCoreApiUrl)) &&
      r.value.mockUser == Defaulted(Get(config, "mockUser"), DefaultMockUser)
  {
    if config.Null? then None
    else
      var c := if config.Undefined? then Obj(map[]) else config;
      Some(DevServerConfig(
        Defaulted(Get(c, "port"), Num(DefaultPort)),
        Defaulted(Get(c, "frontendUrl"), Str(DefaultFrontendUrl)),
        Defaulted(Get(c, "coreApiUrl"), Str(DefaultCoreApiUrl)),
        Defaulted(Get(c, "mockUser"), DefaultMockUser)))
  }

  /** With no configuration at all, every default applies */
  lemma NoConfigGivesDefaults()
    ensures ResolveConfig(Undefined) == Some(DevServerConfig(Num(4001), Str(DefaultFrontendUrl), Str(DefaultCoreApiUrl), DefaultMockUser))
    ensures ResolveConfig(Obj(map[])) == ResolveConfig(Undefined)
    ensures Get(DefaultMockUser, "id") == Num(1) && Get(DefaultMockUser, "role") == Str("admin")
  {
  }

  const LocalhostPrefix := "http://localhost:"

  /** `/^http:\/\/localhost:\d+$/`: the prefix, then one or more digits up to the end */
  predicate LocalhostOrigin(origin: string) {
    StartsWith(origin, LocalhostPrefix) && |origin| > |LocalhostPrefix| && AllDigits(origin[|LocalhostPrefix|..])
  }

  datatype CorsDecision = Allow | Reject(message: string)

  /** The `origin` callback given to `cors`; `origin` is absent for non-browser clients */
  function CorsOrigin(frontendUrl: Value, origin: Option<string>): (r: CorsDecision)
    ensures r.Allow? <==> (!TruthyStr(origin) || LocalhostOrigin(origin.value) || Str(origin.value) == frontendUrl)
    ensures r.Reject? ==> r.message == "Not allowed by CORS"
  {
    if !TruthyStr(origin) then Allow
    else if LocalhostOrigin(origin.value) then Allow
    else if Str(origin.value) == frontendUrl then Allow
    else Reject("Not allowed by CORS")
  }

  /** Every localhost port written in decimal is allowed, whatever the configured frontend */
  lemma EveryLocalhostPortAllowed(frontendUrl: Value, port: nat)
    ensures CorsOrigin(frontendUrl, Some(LocalhostPrefix + NatToString(port))) == Allow
  {
    var o := LocalhostPrefix + NatToString(port);
    assert o[|LocalhostPrefix|..] == NatToString(port);
  }

  /** A trailing path, `https`, or a missing port is not a localhost origin; such an origin passes only as the configured frontend */
  lemma NonPortOriginsNeedFrontendMatch(frontendUrl: Value, port: nat, path: string)
    requires path != ""
    ensures !LocalhostOrigin(LocalhostPrefix + NatToString(port) + "/" + path)
    ensures !LocalhostOrigin("https://localhost:" + NatToString(port))
    ensures !LocalhostOrigin("http://localhost")
    ensures !LocalhostOrigin(LocalhostPrefix)
  {
    var o := LocalhostPrefix + NatToString(port) + "/" + path;
    assert o[|LocalhostPrefix| + |NatToString(port)|] == '/';
    assert !IsDigit(o[|LocalhostPrefix|..][|NatToString(port)|]);
    var h := "https://localhost:" + NatToString(port);
    assert h[4] != LocalhostPrefix[4];
  }

  /** A request as the handlers see it */
  datatype Request = Request(verb: string, path: string, headers: map<string, string>, body: Value, user: Value)

  const MockAuthorization := "Bearer mock-dev-token"

  /** The mock-auth middleware: every request is the configured user with the mock token */
  function MockAuth(cfg: DevServerConfig, req: Request): (r: Request)
    ensures r.user == cfg.mockUser
    ensures r.headers.Keys == req.headers.Keys + {"authorization"}
    ensures r.headers["authorization"] == MockAuthorization
    ensures forall k :: k in req.headers && k != "authorization" ==> r.headers[k] == req.headers[k]
    ensures r.verb == req.verb && r.path == req.path && r.body == req.body
  {
    req.(user := cfg.mockUser, headers := req.headers["authorization" := MockAuthorization])
  }

  /** Passing the middleware twice is the same as once */
  lemma MockAuthIdempotent(cfg: DevServerConfig, req: Request)
    ensures MockAuth(cfg, MockAuth(cfg, req)) == MockAuth(cfg, req)
  {
    assert MockAuth(cfg, MockAuth(cfg, req)).headers == MockAuth(cfg, req).headers;
  }

  /** `GET /health`; `timestamp` is `new Date().toISOString()` */
  function Health(cfg: DevServerConfig, timestamp: string): (v: Value)
    ensures Get(v, "status") == Str("ok") && Get(v, "mode") == Str("standalone")
    ensures Get(Get(v, "config"), "port") == cfg.port
    ensures Get(Get(v, "config"), "frontendUrl") == cfg.frontendUrl
    ensures Get(Get(v, "config"), "coreApiUrl") == cfg.coreApiUrl
    ensures v.Obj? && v.fields.Keys == {"status", "mode", "timestamp", "config"}
  {
    Obj(map[
      "status" := Str("ok"),
      "mode" := Str("standalone"),
      "timestamp" := Str(timestamp),
      "config" := Obj(map["port" := cfg.port, "frontendUrl" := cfg.frontendUrl, "coreApiUrl" := cfg.coreApiUrl])])
  }

  /** The error-handling middleware; `stack` is only spread in when NODE_ENV is "development" */
  function ErrorHandler(err: Thrown, nodeEnv: Option<string>): (r: Response)
    ensures r.status == 500
    ensures r.body.Obj? && Get(r.body, "error") == Str("Internal Server Error") && Get(r.body, "message") == err.message
    ensures "stack" in r.body.fields <==> nodeEnv == Some("development")
    ensures "stack" in r.body.fields ==> r.body.fields["stack"] == err.stack
  {
    var base := map["error" := Str("Internal Server Error"), "message" := err.message];
    Response(500, Obj(if nodeEnv == Some("development") then base["stack" := err.stack] else base))
  }

  /** A server started without configuration reports the default port, frontend URL and core API URL */
  lemma HealthEchoesDefaults(timestamp: string)
    ensures var config := Get(Health(ResolveConfig(Undefined).value, timestamp), "config");
      Get(config, "port") == Num(4001)
      && Get(config, "frontendUrl") == Str("http://localhost:5182")
      && Get(config, "coreApiUrl") == Str("http://localhost:3000")
  {
    NoConfigGivesDefaults();
  }

  /** A configured port is reported as given, even one the defaults would not pick */
  lemma HealthEchoesConfiguredPort(port: Value, timestamp: string)
    requires !port.Undefined?
    ensures Get(Get(Health(ResolveConfig(Obj(map["port" := port])).value, timestamp), "config"), "port") == port
  {
  }

  /** Development only adds the stack: without it the answer is the one any other environment gets */
  lemma DevelopmentOnlyAddsStack(err: Thrown, nodeEnv: Option<string>)
    requires nodeEnv != Some("development")
    ensures ErrorHandler(err, Some("development")).body.fields - {"stack"} == ErrorHandler(err, nodeEnv).body.fields
    ensures ErrorHandler(err, Some("development")).status == ErrorHandler(err, nodeEnv).status
  {
  }
}
