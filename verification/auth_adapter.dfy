/**
 * The plugin-side authentication adapter (src/sandbox/frontend/auth-adapter.ts):
 * a fixed mock identity in standalone mode, the core's hook or header
 * function when the core exposes them, and a localStorage-based fallback
 * otherwise. The window, its storage and the core's globals are inputs.
 */
module AuthAdapter {
  import opened Common
  import opened Js
  import opened Browser

  type Headers = map<string, string>

  /** Calling the core's `__FORMARA_AUTH_HEADERS__(token)` either returns headers or throws */
  datatype HeadersCall = HeadersReturned(headers: Headers) | HeadersThrew

  /**
   * What the core's `useAuth()` returned, reduced to what the adapter reads:
   * `user`, `token` and `loading` as values, and whether `login`, `logout`
   * and `loginWithToken` are truthy.
   */
  datatype CoreAuth = CoreAuth(user: Value, token: Value, loading: Value, hasLogin: bool, hasLogout: bool, hasLoginWithToken: bool)

  /** Calling the core's hook: it throws, returns nothing (`null`/`undefined`), or returns an auth object */
  datatype CoreAuthCall = AuthThrew | AuthReturnedNothing | AuthReturned(auth: CoreAuth)

  /**
   * The window as this adapter reads it. `storage` is localStorage;
   * `coreAuthHeaders` is present when `__FORMARA_AUTH_HEADERS__` is a function;
   * `coreUseAuth` is present when `__FORMARA_CORE_AUTH__.useAuth` is a function
   * and gives the outcome of calling it.
   */
  datatype AuthWindow = AuthWindow(
    location: Location,
    storage: map<string, string>,
    coreAuthHeaders: Option<Option<string> -> HeadersCall>,
    coreUseAuth: Option<CoreAuthCall>)

  function Standalone(window: Option<AuthWindow>): bool {
    IsStandaloneMode(if window.Some? then Some(window.value.location) else None)
  }

  /** `localStorage.getItem(key)` when there is a window, `null` otherwise */
  function Stored(window: Option<AuthWindow>, key: string): (r: Option<string>)
    ensures r.Some? <==> window.Some? && key in window.value.storage
    ensures r.Some? ==> r.value == window.value.storage[key]
  {
    if window.Some? && key in window.value.storage then Some(window.value.storage[key]) else None
  }

  const MockToken := "mock-dev-token"
  const JsonContentType := "application/json"

  /** The standalone headers, also the ones the catch branch produces (its `fallbackToken` is never empty) */
  function BearerHeaders(token: Option<string>): (r: Headers)
    ensures r.Keys == {"Authorization", "Content-Type"}
    ensures r["Authorization"] == "Bearer " + (if TruthyStr(token) then token.value else MockToken)
    ensures r["Content-Type"] == JsonContentType
  {
    map["Authorization" := "Bearer " + OrStr(token, MockToken), "Content-Type" := JsonContentType]
  }

  /** The integrated fallback: the core's own rules, with the token parameter before the stored `auth_token` */
  function FallbackHeaders(window: Option<AuthWindow>, token: Option<string>): (r: Headers)
    ensures r.Keys <= {"Authorization", "Content-Type", "x-workspace-id"}
    ensures "Content-Type" in r && r["Content-Type"] == JsonContentType
    ensures "Authorization" in r <==> TruthyStr(token) || TruthyStr(Stored(window, "auth_token"))
    ensures "Authorization" in r ==>
      r["Authorization"] == "Bearer " + (if TruthyStr(token) then token.value else Stored(window, "auth_token").value)
    ensures "x-workspace-id" in r <==> TruthyStr(Stored(window, "active_ws"))
    ensures "x-workspace-id" in r ==> r["x-workspace-id"] == Stored(window, "active_ws").value
  {
    var realToken := if TruthyStr(token) then token else Stored(window, "auth_token");
    var base := map["Content-Type" := JsonContentType];
    var withAuth := if TruthyStr(realToken) then base["Authorization" := "Bearer " + realToken.value] else base;
    var activeWs := Stored(window, "active_ws");
    if TruthyStr(activeWs) then withAuth["x-workspace-id" := activeWs.value] else withAuth
  }

  /** `authHeaders(token)` */
  function AuthHeaders(window: Option<AuthWindow>, token: Option<string>): (r: Headers)
    ensures Standalone(window) ==> r == BearerHeaders(token)
    ensures !Standalone(window) && window.Some? && window.value.coreAuthHeaders.Some? ==>
      match window.value.coreAuthHeaders.value(token)
      case HeadersReturned(h) => r == h
      case HeadersThrew => r == BearerHeaders(token)
    ensures !Standalone(window) && (window.None? || window.value.coreAuthHeaders.None?) ==>
      r == FallbackHeaders(window, token)
  {
    if Standalone(window) then BearerHeaders(token)
    else if window.Some? && window.value.coreAuthHeaders.Some? then
      match window.value.coreAuthHeaders.value(token)
      case HeadersReturned(h) => h
      case HeadersThrew => BearerHeaders(token)
    else FallbackHeaders(window, token)
  }

  /** The user object `useAuth` exposes */
  datatype AuthUser = AuthUser(id: Value, email: Value, name: Value, workspaceId: Value, role: Value, token: Value)

  /** Which implementation a callback of the result runs */
  datatype Callback = MockCallback | CoreCallback | NoOp | RemoveStoredToken

  /** `UseAuthReturn` */
  datatype AuthState = AuthState(
    user: Option<AuthUser>,
    token: Value,
    loading: Value,
    login: Callback,
    logout: Callback,
    loginWithToken: Option<Callback>)

  /** `MOCK_USER` */
  const MockUser := AuthUser(Num(1), Str("dev@example.com"), Str("Developer"), Num(1), Str("admin"), Str(MockToken))

  /** The standalone result: always signed in as the mock user */
  const MockState := AuthState(Some(MockUser), Str(MockToken), Bool(false), MockCallback, MockCallback, None)

  /** The result built from the core's hook (the `try` branch) */
  function FromCore(c: CoreAuth): (r: AuthState)
    ensures r.user.Some? <==> Truthy(c.user)
    ensures r.user.Some? ==> r.user.value.workspaceId == Or(Get(c.user, "workspaceId"), Num(1))
    ensures r.user.Some? ==> r.user.value.token == c.token
    ensures r.token == (if Truthy(c.token) then c.token else Null)
    ensures r.loginWithToken.Some? <==> c.hasLoginWithToken
  {
    var u := c.user;
    AuthState(
      if Truthy(u) then
        Some(AuthUser(Get(u, "id"), Get(u, "email"), Or(Get(u, "name"), Undefined),
                      Or(Get(u, "workspaceId"), Num(1)), Get(u, "role"), c.token))
      else None,
      Or(c.token, Null),
      Or(c.loading, Bool(false)),
      if c.hasLogin then CoreCallback else NoOp,
      if c.hasLogout then CoreCallback else NoOp,
      if c.hasLoginWithToken then Some(CoreCallback) else None)
  }

  /** The localStorage fallback: signed in exactly when a non-empty `auth_token` is stored */
  function FromStorage(window: Option<AuthWindow>): (r: AuthState)
    ensures r.user.Some? <==> TruthyStr(Stored(window, "auth_token"))
    ensures r.token == (if Stored(window, "auth_token").Some? then Str(Stored(window, "auth_token").value) else Null)
    ensures r.user.Some? ==> r.user.value.token == r.token && r.user.value.workspaceId == Num(1)
    ensures r.logout == RemoveStoredToken && r.loginWithToken.None?
  {
    var stored := Stored(window, "auth_token");
    var token := if stored.Some? then Str(stored.value) else Null;
    var user := if Truthy(token) then Some(AuthUser(Num(1), Str("user@example.com"), Str("User"), Num(1), Undefined, token)) else None;
    AuthState(user, token, Bool(false), NoOp, RemoveStoredToken, None)
  }

  /** `useAuth()` */
  function UseAuth(window: Option<AuthWindow>): (r: AuthState)
    ensures Standalone(window) ==> r == MockState
    ensures !Standalone(window) && window.Some? && window.value.coreUseAuth.Some? && window.value.coreUseAuth.value.AuthReturned? ==>
      r == FromCore(window.value.coreUseAuth.value.auth)
    ensures !Standalone(window) && !(window.Some? && window.value.coreUseAuth.Some? && window.value.coreUseAuth.value.AuthReturned?) ==>
      r == FromStorage(window)
  {
    if Standalone(window) then MockState
    else if window.Some? && window.value.coreUseAuth.Some? then
      match window.value.coreUseAuth.value
      case AuthReturned(c) => FromCore(c)
      case _ => FromStorage(window)
    else FromStorage(window)
  }

  /** In standalone mode the headers carry exactly the token `useAuth` reports */
  lemma StandaloneHeadersMatchMockToken(window: Option<AuthWindow>)
    requires Standalone(window)
    ensures AuthHeaders(window, None)["Authorization"] == "Bearer " + UseAuth(window).token.s
  {
  }

  /**
   * Without the core, the headers and the hook agree: there is an Authorization
   * header exactly when `useAuth` reports a user, and it carries that user's token.
   */
  lemma FallbackHeadersAgreeWithUser(window: Option<AuthWindow>)
    requires !Standalone(window)
    requires window.None? || (window.value.coreAuthHeaders.None? && (window.value.coreUseAuth.None? || !window.value.coreUseAuth.value.AuthReturned?))
    ensures "Authorization" in AuthHeaders(window, None) <==> UseAuth(window).user.Some?
    ensures UseAuth(window).user.Some? ==>
      AuthHeaders(window, None)["Authorization"] == "Bearer " + UseAuth(window).user.value.token.s
  {
  }

  /** A core header function that throws leaves the request authenticated with the caller's or the mock token */
  lemma ThrowingCoreHeadersStillAuthenticate(window: Option<AuthWindow>, token: Option<string>)
    requires !Standalone(window) && window.Some? && window.value.coreAuthHeaders.Some?
    requires window.value.coreAuthHeaders.value(token) == HeadersThrew
    ensures AuthHeaders(window, token) == BearerHeaders(token)
  {
  }
}
