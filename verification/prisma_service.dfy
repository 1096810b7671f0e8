/**
 * The SDK's shared Prisma service (backend/services/prisma.service.ts): a
 * lazily created, cached PrismaClient that only exists once DATABASE_URL is
 * set, and the `sharedPrisma` proxy that routes every property read through
 * that lazy getter. The module-level cache is explicit state; the
 * environment is an input to each call.
 */
module PrismaService {
  import opened Common
  import opened Js

  /** A constructed PrismaClient; `serial` counts constructions, so two clients are equal only if they are the same one */
  datatype Client = Client(serial: nat, logLevels: seq<string>)

  /** The module state: the cached `prismaInstance` and how many clients were ever constructed */
  datatype State = State(instance: Option<Client>, constructed: nat)

  const Initial := State(None, 0)

  /** Every state reachable from `Initial`: a client is cached exactly when one was constructed, and it was the first */
  predicate Valid(s: State) {
    (s.instance.None? && s.constructed == 0) || (s.instance.Some? && s.constructed == 1 && s.instance.value.serial == 0)
  }

  /** What `getPrismaClient()` hands out: the real client, or the stand-in whose every property read throws */
  datatype Handle = Real(client: Client) | Unavailable

  const UnavailableMessage := "Prisma no disponible: DATABASE_URL no configurada. Configure DATABASE_URL en .env del plugin."

  /** `getPrismaClient()`; `databaseUrl` is `process.env.DATABASE_URL` */
  function GetPrismaClient(s: State, databaseUrl: Option<string>): (r: (Handle, State))
    ensures s.instance.Some? ==> r == (Real(s.instance.value), s)
    ensures s.instance.None? && !TruthyStr(databaseUrl) ==> r == (Unavailable, s)
    ensures s.instance.None? && TruthyStr(databaseUrl) ==>
      r.0.Real? && r.1.instance == Some(r.0.client) && r.1.constructed == s.constructed + 1
      && r.0.client.logLevels == ["error", "warn"]
    ensures Valid(s) ==> Valid(r.1)
  {
    if s.instance.Some? then (Real(s.instance.value), s)
    else if !TruthyStr(databaseUrl) then (Unavailable, s)
    else
      var c := Client(s.constructed, ["error", "warn"]);
      (Real(c), State(Some(c), s.constructed + 1))
  }

  /** A sequence of calls, each under its own environment: the handles returned and the final state */
  function RunCalls(s: State, envs: seq<Option<string>>): (r: (seq<Handle>, State))
    ensures |r.0| == |envs|
    ensures Valid(s) ==> Valid(r.1)
    decreases |envs|
  {
    if |envs| == 0 then ([], s)
    else
      var first := GetPrismaClient(s, envs[0]);
      var rest := RunCalls(first.1, envs[1..]);
      ([first.0] + rest.0, rest.1)
  }

  /** Across any sequence of calls, at most one PrismaClient is ever constructed */
  lemma AtMostOneClient(envs: seq<Option<string>>)
    ensures RunCalls(Initial, envs).1.constructed <= 1
  {
    assert Valid(Initial);
  }

  /** Once a client is cached, every later call returns that same client, whatever the environment says */
  lemma {:induction false} CachedClientIsStable(s: State, envs: seq<Option<string>>)
    requires s.instance.Some?
    ensures RunCalls(s, envs).1 == s
    ensures forall i :: 0 <= i < |envs| ==> RunCalls(s, envs).0[i] == Real(s.instance.value)
    decreases |envs|
  {
    if |envs| > 0 {
      CachedClientIsStable(s, envs[1..]);
    }
  }

  /** All real clients handed out over a run from the initial state are one and the same */
  lemma {:induction false} OneClientPerProcess(s: State, envs: seq<Option<string>>, i: nat, j: nat)
    requires Valid(s)
    requires i < |envs| && j < |envs|
    requires RunCalls(s, envs).0[i].Real? && RunCalls(s, envs).0[j].Real?
    ensures RunCalls(s, envs).0[i] == RunCalls(s, envs).0[j]
    decreases |envs|
  {
    var first := GetPrismaClient(s, envs[0]);
    if first.1.instance.Some? {
      CachedClientIsStable(first.1, envs[1..]);
    } else if i > 0 && j > 0 {
      OneClientPerProcess(first.1, envs[1..], i - 1, j - 1);
    }
  }

  /** A property read on `sharedPrisma`: the property of the client, or the stand-in's exception */
  datatype Access = Got(value: Value) | AccessThrew(message: string)

  /** `sharedPrisma[prop]`: always via `getPrismaClient()`; `read` gives a client's property */
  function SharedPrismaGet(s: State, databaseUrl: Option<string>, prop: string, read: (Client, string) -> Value): (r: (Access, State))
    ensures r.1 == GetPrismaClient(s, databaseUrl).1
    ensures r.0.AccessThrew? <==> s.instance.None? && !TruthyStr(databaseUrl)
    ensures r.0.AccessThrew? ==> r.0.message == UnavailableMessage
    ensures r.0.Got? ==> r.0.value == read(GetPrismaClient(s, databaseUrl).0.client, prop)
  {
    var (h, s') := GetPrismaClient(s, databaseUrl);
    match h
    case Unavailable => (AccessThrew(UnavailableMessage), s')
    case Real(c) => (Got(read(c, prop)), s')
  }

  /** Without DATABASE_URL nothing is cached, so setting it later still brings the database up */
  lemma LateDatabaseUrlStillWorks(url: string, prop: string, read: (Client, string) -> Value)
    requires url != ""
    ensures var (a1, s1) := SharedPrismaGet(Initial, None, prop, read);
      a1.AccessThrew? && s1 == Initial && SharedPrismaGet(s1, Some(url), prop, read).0.Got?
  {
  }
}
