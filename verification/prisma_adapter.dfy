/**
 * The sandbox's Prisma adapter (dist/sandbox/backend/prisma-adapter.js):
 * the working-directory rule for standalone mode, and the memoised
 * `getPrismaClient` that builds a local client in standalone mode and takes
 * the core's shared client in integrated mode, falling back to a local one.
 * The working directory, NODE_ENV and the result of requiring the core's
 * shared module are inputs.
 */
module PrismaAdapter {
  import opened Common
  import opened Js

  /** `isStandaloneMode()`: integrated exactly when the working directory is a `backend` directory */
  predicate IsStandaloneMode(cwd: string) {
    !(EndsWith(cwd, "/backend") || EndsWith(cwd, "/formara/backend"))
  }

  /** The `/formara/backend` test adds nothing: it implies the `/backend` one */
  lemma FormaraBackendSubsumed(cwd: string)
    ensures IsStandaloneMode(cwd) <==> !EndsWith(cwd, "/backend")
  {
    if EndsWith(cwd, "/formara/backend") {
      assert cwd[|cwd| - 8..] == "/formara/backend"[8..];
    }
  }

  /** Requiring `src/services/prisma.shared.js` under the working directory: it throws, or yields its two exports */
  datatype SharedModule = LoadFailed(message: Value) | Loaded(sharedPrisma: Value, default: Value)

  /** The client the adapter hands out. `log` is None for `new PrismaClient()` without options */
  datatype Instance = LocalClient(log: Option<seq<string>>) | SharedClient(client: Value)

  /** The outcome of a call: the instance and the new cache, or the "could not be initialised" error */
  datatype Init = Initialised(instance: Instance, cache: Option<Instance>) | InitFailed(message: string)

  /** The log levels of the standalone client */
  function StandaloneLog(nodeEnv: Option<string>): seq<string> {
    if nodeEnv == Some("development") then ["error", "warn"] else ["error"]
  }

  /** The integrated branch: the shared client when the module loads and exports one, else a local client */
  function IntegratedInstance(shared: SharedModule): (r: Instance)
    ensures r.SharedClient? <==> shared.Loaded? && Truthy(Or(shared.sharedPrisma, shared.default))
    ensures r.SharedClient? ==> r.client == Or(shared.sharedPrisma, shared.default) && Truthy(r.client)
    ensures r.LocalClient? ==> r.log.None?
  {
    match shared
    case LoadFailed(_) => LocalClient(None)
    case Loaded(named, default) =>
      var candidate := Or(named, default);
      // a falsy candidate throws 'sharedPrisma is undefined', caught by the fallback
      if !Truthy(candidate) then LocalClient(None) else SharedClient(candidate)
  }

  /** `getPrismaClient()` with the module's `prismaInstance` as `cache` */
  function GetPrismaClient(cache: Option<Instance>, cwd: string, nodeEnv: Option<string>, shared: SharedModule): (r: Init)
    ensures r.Initialised?
    ensures r.cache == Some(r.instance)
    ensures cache.Some? ==> r.instance == cache.value
    ensures cache.None? && IsStandaloneMode(cwd) ==> r.instance == LocalClient(Some(StandaloneLog(nodeEnv)))
    ensures cache.None? && !IsStandaloneMode(cwd) ==> r.instance == IntegratedInstance(shared)
  {
    if cache.Some? then Initialised(cache.value, cache)
    else
      var created := if IsStandaloneMode(cwd) then LocalClient(Some(StandaloneLog(nodeEnv))) else IntegratedInstance(shared);
      var stored: Option<Instance> := Some(created);
      if stored.None? then InitFailed("PrismaClient no pudo ser inicializado")
      else Initialised(created, stored)
  }

  /** Once initialised, later calls return the same client without looking at the working directory, NODE_ENV or the shared module again */
  lemma MemoisedIgnoresEnvironment(cwd1: string, env1: Option<string>, shared1: SharedModule,
                                   cwd2: string, env2: Option<string>, shared2: SharedModule)
    ensures var first := GetPrismaClient(None, cwd1, env1, shared1);
      GetPrismaClient(first.cache, cwd2, env2, shared2) == first
  {
  }

  /** In integrated mode no failure of the shared module escapes: the caller always gets a client */
  lemma IntegratedFailureFallsBack(cwd: string, nodeEnv: Option<string>, message: Value)
    requires !IsStandaloneMode(cwd)
    ensures GetPrismaClient(None, cwd, nodeEnv, LoadFailed(message)).instance == LocalClient(None)
    ensures GetPrismaClient(None, cwd, nodeEnv, Loaded(Undefined, Undefined)).instance == LocalClient(None)
  {
  }

  /** The named export wins over the default export when both are set */
  lemma NamedSharedExportWins(cwd: string, nodeEnv: Option<string>, named: Value, default: Value)
    requires !IsStandaloneMode(cwd) && Truthy(named)
    ensures GetPrismaClient(None, cwd, nodeEnv, Loaded(named, default)).instance == SharedClient(named)
  {
  }
}
