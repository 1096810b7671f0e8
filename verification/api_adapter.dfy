/**
 * The plugin-side `api()` URL builder (dist/sandbox/frontend/api-adapter.js).
 * In standalone mode URLs point at the plugin's own backend; in integrated
 * mode they go through the core's `api` function, a relative path, or the
 * configured/same-origin base. The window and its globals are inputs.
 */
module ApiAdapter {
  import opened Common
  import opened Js
  import opened Browser

  /**
   * The window as this adapter reads it: `__PLUGIN_BACKEND_URL__`,
   * `__PLUGIN_BACKEND_PORT__` (both strings set by DevApp) and the core's
   * `__FORMARA_API__`, present only when it is a function.
   */
  datatype ApiWindow = ApiWindow(
    location: Location,
    pluginBackendUrl: Option<string>,
    pluginBackendPort: Option<string>,
    coreApi: Option<string -> string>)

  function LocationOf(window: Option<ApiWindow>): (r: Option<Location>)
    ensures r.Some? <==> window.Some?
    ensures r.Some? ==> r.value == window.value.location
  {
    match window
    case None => None
    case Some(w) => Some(w.location)
  }

  const DefaultBackendPort := "4001"
  const NoWindowBase := "http://localhost:3000"

  /** Where standalone requests go: the configured backend URL, else localhost on the configured port or 4001 */
  function PluginBackendBase(w: ApiWindow): (r: string)
    ensures TruthyStr(w.pluginBackendUrl) ==> r == w.pluginBackendUrl.value
    ensures !TruthyStr(w.pluginBackendUrl) && TruthyStr(w.pluginBackendPort) ==> r == "http://localhost:" + w.pluginBackendPort.value
    ensures !TruthyStr(w.pluginBackendUrl) && !TruthyStr(w.pluginBackendPort) ==> r == "http://localhost:4001"
  {
    if TruthyStr(w.pluginBackendUrl) then w.pluginBackendUrl.value
    else "http://localhost:" + OrStr(w.pluginBackendPort, DefaultBackendPort)
  }

  /** `getBaseUrl()` */
  function GetBaseUrl(window: Option<ApiWindow>): (r: string)
    ensures IsStandaloneMode(LocationOf(window)) ==> r == PluginBackendBase(window.value)
    ensures !IsStandaloneMode(LocationOf(window)) && window.Some? ==> r == window.value.location.origin
    ensures window.None? ==> r == NoWindowBase
  {
    if IsStandaloneMode(LocationOf(window)) then PluginBackendBase(window.value)
    else if window.Some? then window.value.location.origin
    else NoWindowBase
  }

  predicate IsAbsoluteUrl(path: string) {
    StartsWith(path, "http://") || StartsWith(path, "https://")
  }

  /** The path with a leading '/' added when it has none */
  function NormalizePath(path: string): (r: string)
    ensures StartsWith(r, "/") && EndsWith(r, path)
    ensures |r| <= |path| + 1
    ensures StartsWith(path, "/") ==> r == path
  {
    if StartsWith(path, "/") then path else "/" + path
  }

  /** `api(path)`; `viteApiUrl` is `import.meta.env.VITE_API_URL` */
  function Api(window: Option<ApiWindow>, viteApiUrl: Option<string>, path: string): (r: string)
    ensures IsAbsoluteUrl(path) ==> r == path
    ensures !IsAbsoluteUrl(path) && IsStandaloneMode(LocationOf(window)) ==>
      r == PluginBackendBase(window.value) + NormalizePath(path)
    ensures !IsAbsoluteUrl(path) && !IsStandaloneMode(LocationOf(window)) && window.Some? && window.value.coreApi.Some? ==>
      r == window.value.coreApi.value(NormalizePath(path))
    ensures !IsAbsoluteUrl(path) && !IsStandaloneMode(LocationOf(window)) && window.Some? && window.value.coreApi.None? ==>
      r == (if IsLocalHost(window.value.location.hostname) then "" else OrStr(viteApiUrl, window.value.location.origin))
           + NormalizePath(path)
    ensures !IsAbsoluteUrl(path) && window.None? ==> r == NoWindowBase + NormalizePath(path)
  {
    if IsAbsoluteUrl(path) then path
    else
      var normalized := NormalizePath(path);
      var standalone := IsStandaloneMode(LocationOf(window));
      if !standalone && window.Some? then
        var w := window.value;
        if w.coreApi.Some? then w.coreApi.value(normalized)
        else if IsLocalHost(w.location.hostname) then normalized
        else OrStr(viteApiUrl, w.location.origin) + normalized
      else GetBaseUrl(window) + normalized
  }

  /** For a fixed environment, a missing leading slash makes no difference */
  lemma SlashInsensitive(window: Option<ApiWindow>, viteApiUrl: Option<string>, path: string)
    requires !IsAbsoluteUrl(path) && !StartsWith(path, "/")
    ensures Api(window, viteApiUrl, path) == Api(window, viteApiUrl, "/" + path)
  {
    var p := "/" + path;
    assert StartsWith(p, "/");
    assert p[0] == '/';
    assert !IsAbsoluteUrl(p);
    assert NormalizePath(path) == NormalizePath(p);
  }

  /** Unless the core's own function takes over, the URL ends with the normalised path */
  lemma PathIsKept(window: Option<ApiWindow>, viteApiUrl: Option<string>, path: string)
    requires !IsAbsoluteUrl(path)
    requires window.None? || IsStandaloneMode(LocationOf(window)) || window.value.coreApi.None?
    ensures EndsWith(Api(window, viteApiUrl, path), NormalizePath(path))
  {
  }

  /** A plugin dev server with nothing configured sends requests to the plugin backend on port 4001 */
  lemma StandaloneDefaultsToPort4001(w: ApiWindow, viteApiUrl: Option<string>, path: string)
    requires IsStandaloneMode(Some(w.location))
    requires !TruthyStr(w.pluginBackendUrl) && !TruthyStr(w.pluginBackendPort)
    requires !IsAbsoluteUrl(path)
    ensures Api(Some(w), viteApiUrl, path) == "http://localhost:4001" + NormalizePath(path)
  {
  }

  /** A standalone page with a configured backend port calls localhost on that port */
  lemma StandaloneUsesConfiguredPort(w: ApiWindow, viteApiUrl: Option<string>, path: string)
    requires IsStandaloneMode(Some(w.location))
    requires !TruthyStr(w.pluginBackendUrl) && TruthyStr(w.pluginBackendPort)
    requires !IsAbsoluteUrl(path)
    ensures Api(Some(w), viteApiUrl, path) == "http://localhost:" + w.pluginBackendPort.value + NormalizePath(path)
  {
  }

  /** On the core's local dev server without `__FORMARA_API__`, requests stay relative so Vite's proxy serves them */
  lemma CoreDevServerIsRelative(w: ApiWindow, viteApiUrl: Option<string>, path: string)
    requires IsLocalHost(w.location.hostname) && !IsStandaloneMode(Some(w.location)) && w.coreApi.None?
    requires !IsAbsoluteUrl(path)
    ensures Api(Some(w), viteApiUrl, path) == NormalizePath(path)
  {
  }
}
