/**
 * The sandbox server's capability discovery and dispatch
 * (dev/sandbox-server.ts): which plugin modules are loaded, how the action
 * and hook lists are read off their exports, how a definition is looked up
 * by id, and what status and body the `execute-action` and `dispatch-hook`
 * endpoints answer with. File existence and module exports are inputs; a
 * handler is a function from the payload it receives to what it returns or
 * throws.
 */
module SandboxServer {
  import opened Common
  import opened Js

  // ---------------------------------------------------------------------
  // Definitions, shaped after the action and hook contracts
  // ---------------------------------------------------------------------

  /** Where an action may be surfaced in the host UI */
  datatype ActionContext = Document | FormRecord | Form | Workspace | Global

  /** The lifecycle events a hook may subscribe to */
  datatype HookEvent =
    | FileUploaded | FileProcessing | FileProcessed | FileValidated | FileUpdated | FileDeleted
    | DocumentGenerated | DocumentSent | DocumentSigned
    | FormCreated | FormUpdated | FormDeleted
    | FormRecordCreated | FormRecordUpdated | FormRecordDeleted | FormRecordValidated
    | WorkspaceCreated | WorkspaceMemberAdded
    | UserRegistered | UserLogin
    | SystemStartup | SystemShutdown

  /** The wire name of an event, as a caller writes it in a dispatch body */
  function EventName(e: HookEvent): string {
    match e
    case FileUploaded => "file.uploaded"
    case FileProcessing => "file.processing"
    case FileProcessed => "file.processed"
    case FileValidated => "file.validated"
    case FileUpdated => "file.updated"
    case FileDeleted => "file.deleted"
    case DocumentGenerated => "document.generated"
    case DocumentSent => "document.sent"
    case DocumentSigned => "document.signed"
    case FormCreated => "form.created"
    case FormUpdated => "form.updated"
    case FormDeleted => "form.deleted"
    case FormRecordCreated => "form.record.created"
    case FormRecordUpdated => "form.record.updated"
    case FormRecordDeleted => "form.record.deleted"
    case FormRecordValidated => "form.record.validated"
    case WorkspaceCreated => "workspace.created"
    case WorkspaceMemberAdded => "workspace.member.added"
    case UserRegistered => "user.registered"
    case UserLogin => "user.login"
    case SystemStartup => "system.startup"
    case SystemShutdown => "system.shutdown"
  }

  /** What one invocation of a handler does with the payload it is given */
  datatype Outcome = Returned(value: Value) | Threw(error: Thrown)

  /** `handler` is either not a function, or a function from payload to outcome */
  datatype Handler = NoHandler | Callable(run: Value -> Outcome)

  datatype ActionDef = ActionDef(
    id: string,
    pluginName: string,
    labelText: string,
    icon: Option<string>,
    description: Option<string>,
    contexts: seq<ActionContext>,
    requiresFields: seq<string>,
    requiresStatus: seq<string>,
    requiresPermissions: seq<string>,
    handler: Handler)

  /** `priority`, `async`, `timeout` and `condition` are declared by the contract but never read here */
  datatype HookDef = HookDef(
    id: string,
    pluginName: string,
    event: Option<HookEvent>,
    description: Option<string>,
    handler: Handler)

  datatype Download = Download(filename: string, url: string)
  datatype NotificationKind = Success | Error | Warning | Info
  datatype Notification = Notification(kind: NotificationKind, message: string)

  /** The result envelope an action handler is expected to resolve to */
  datatype ActionResult = ActionResult(
    success: bool,
    message: string,
    data: Option<Value>,
    error: Option<string>,
    refresh: Option<bool>,
    redirect: Option<string>,
    download: Option<Download>,
    notification: Option<Notification>)

  function NotificationKindName(k: NotificationKind): string {
    match k
    case Success => "success"
    case Error => "error"
    case Warning => "warning"
    case Info => "info"
  }

  /** The JavaScript object an `ActionResult` is; absent optional members are left out */
  function ActionResultValue(r: ActionResult): (v: Value)
    ensures v.Obj? && Get(v, "success") == Bool(r.success) && Get(v, "message") == Str(r.message)
    ensures r.data.Some? ==> Get(v, "data") == r.data.value
    ensures r.data.None? ==> Get(v, "data") == Undefined
    ensures r.error.Some? ==> Get(v, "error") == Str(r.error.value)
    ensures r.error.None? ==> Get(v, "error") == Undefined
  {
    var base := map["success" := Bool(r.success), "message" := Str(r.message)];
    var withData := if r.data.Some? then base["data" := r.data.value] else base;
    var withError := if r.error.Some? then withData["error" := Str(r.error.value)] else withData;
    var withRefresh := if r.refresh.Some? then withError["refresh" := Bool(r.refresh.value)] else withError;
    var withRedirect := if r.redirect.Some? then withRefresh["redirect" := Str(r.redirect.value)] else withRefresh;
    var withDownload :=
      if r.download.Some?
      then withRedirect["download" := Obj(map["filename" := Str(r.download.value.filename), "url" := Str(r.download.value.url)])]
      else withRedirect;
    var withNotification :=
      if r.notification.Some?
      then withDownload["notification" := Obj(map["type" := Str(NotificationKindName(r.notification.value.kind)),
                                                  "message" := Str(r.notification.value.message)])]
      else withDownload;
    Obj(withNotification)
  }

  // ---------------------------------------------------------------------
  // Discovery
  // ---------------------------------------------------------------------

  /** A module's two relevant exports; None is an export that is missing or falsy */
  datatype Exports<T> = Exports(named: Option<T>, default: Option<T>)

  /** The module found at `backend/<name>.ts` and at `backend/<name>.js`, if the file exists */
  datatype Candidates<M> = Candidates(ts: Option<M>, js: Option<M>)

  /** The plugin directory as the server sees it at startup */
  datatype PluginDir = PluginDir(
    routes: Candidates<Exports<Value>>,
    actions: Candidates<Exports<seq<ActionDef>>>,
    hooks: Candidates<Exports<seq<HookDef>>>)

  /** `routes = mod.default || mod`: the default export, or the module object itself */
  datatype Routes = DefaultRouter(router: Value) | ModuleRouter(exports: Exports<Value>)

  /** The capabilities loaded once at startup */
  datatype Registry = Registry(routes: Option<Routes>, actions: seq<ActionDef>, hooks: seq<HookDef>)

  /** The `.ts` module when its file exists, otherwise the `.js` one */
  function Discover<M>(c: Candidates<M>): Option<M> {
    if c.ts.Some? then c.ts else c.js
  }

  /** `mod.actions || mod.default || []` (likewise for hooks); an array export is truthy even when empty */
  function ListExport<T>(m: Exports<seq<T>>): seq<T> {
    if m.named.Some? then m.named.value
    else if m.default.Some? then m.default.value
    else []
  }

  function RoutesOf(m: Exports<Value>): Routes {
    if m.default.Some? then DefaultRouter(m.default.value) else ModuleRouter(m)
  }

  function LoadRegistry(d: PluginDir): (r: Registry)
    ensures r.routes.Some? <==> d.routes.ts.Some? || d.routes.js.Some?
    ensures r.routes.Some? ==>
      var m := if d.routes.ts.Some? then d.routes.ts.value else d.routes.js.value;
      (m.default.Some? ==> r.routes.value == DefaultRouter(m.default.value))
      && (m.default.None? ==> r.routes.value == ModuleRouter(m))
    ensures d.actions.ts.Some? ==> r.actions == ListExport(d.actions.ts.value)
    ensures d.actions.ts.None? && d.actions.js.Some? ==> r.actions == ListExport(d.actions.js.value)
    ensures d.actions.ts.None? && d.actions.js.None? ==> r.actions == []
    ensures d.hooks.ts.Some? ==> r.hooks == ListExport(d.hooks.ts.value)
    ensures d.hooks.ts.None? && d.hooks.js.Some? ==> r.hooks == ListExport(d.hooks.js.value)
    ensures d.hooks.ts.None? && d.hooks.js.None? ==> r.hooks == []
  {
    var routes := match Discover(d.routes) case Some(m) => Some(RoutesOf(m)) case None => None;
    var actions := match Discover(d.actions) case Some(m) => ListExport(m) case None => [];
    var hooks := match Discover(d.hooks) case Some(m) => ListExport(m) case None => [];
    Registry(routes, actions, hooks)
  }

  /** When the `.ts` module exists, whatever sits at the `.js` path is never consulted */
  lemma TsShadowsJs(d: PluginDir, routesJs: Option<Exports<Value>>,
                    actionsJs: Option<Exports<seq<ActionDef>>>, hooksJs: Option<Exports<seq<HookDef>>>)
    requires d.routes.ts.Some? && d.actions.ts.Some? && d.hooks.ts.Some?
    ensures LoadRegistry(d.(routes := d.routes.(js := routesJs),
                            actions := d.actions.(js := actionsJs),
                            hooks := d.hooks.(js := hooksJs)))
            == LoadRegistry(d)
  {
  }

  /** A list exported by name and the same list exported as default load identically */
  lemma ExportShapesAgree<T>(l: seq<T>)
    ensures ListExport(Exports(Some(l), None)) == ListExport(Exports(None, Some(l))) == l
  {
  }

  /** The named export wins over the default export, even when it is an empty array */
  lemma NamedExportWins<T>(named: seq<T>, default: Option<seq<T>>)
    ensures ListExport(Exports(Some(named), default)) == named
  {
  }

  // ---------------------------------------------------------------------
  // Lookup
  // ---------------------------------------------------------------------

  /** `i` is the position `Array.prototype.find` stops at when looking for `id` */
  predicate FirstWith(ids: seq<string>, id: string, i: int) {
    0 <= i < |ids| && ids[i] == id && forall j :: 0 <= j < i ==> ids[j] != id
  }

  /** The position of the first entry equal to `id`, scanning from the front */
  function FindFirst(ids: seq<string>, id: string): (r: Option<nat>)
    ensures r.Some? ==> FirstWith(ids, id, r.value)
    ensures r.None? <==> id !in ids
  {
    if |ids| == 0 then None
    else if ids[0] == id then Some(0)
    else match FindFirst(ids[1..], id)
      case None => None
      case Some(k) => Some(k + 1)
  }

  /** At most one position is the first match */
  lemma FirstWithUnique(ids: seq<string>, id: string, i: int, j: int)
    requires FirstWith(ids, id, i) && FirstWith(ids, id, j)
    ensures i == j
  {
  }

  function ActionId(a: ActionDef): string { a.id }

  function HookId(h: HookDef): string { h.id }

  /** `defs.map(d => d.id)` for actions and hooks alike */
  function Ids<D>(p: seq<D>, idOf: D -> string): (ids: seq<string>)
    ensures |ids| == |p| && forall i :: 0 <= i < |p| ==> ids[i] == idOf(p[i])
  {
    if |p| == 0 then [] else [idOf(p[0])] + Ids(p[1..], idOf)
  }

  function StrList(ids: seq<string>): (v: Value)
    ensures v.Arr? && |v.elems| == |ids| && forall i :: 0 <= i < |ids| ==> v.elems[i] == Str(ids[i])
  {
    if |ids| == 0 then Arr([]) else Arr([Str(ids[0])] + StrList(ids[1..]).elems)
  }

  // ---------------------------------------------------------------------
  // Endpoints
  // ---------------------------------------------------------------------

  /** The catch clause of both dispatch endpoints; `stack` is only filled in development */
  function ServerError(message: string, e: Thrown, development: bool): Response {
    Response(500, Obj(map[
      "success" := Bool(false),
      "message" := Str(message),
      "error" := Or(e.message, Str("Error desconocido")),
      "stack" := if development then e.stack else Undefined]))
  }

  function Quoted(s: string): string {
    "\"" + s + "\""
  }

  function ActionNotFound(p: seq<ActionDef>, actionId: string): Response {
    Response(404, Obj(map[
      "success" := Bool(false),
      "error" := Str("Action " + Quoted(actionId) + " no encontrada"),
      "availableActions" := StrList(Ids(p, ActionId))]))
  }

  /** Outcome of running a found action's handler: the result verbatim, unless reading `result.success` throws */
  function ActionOutcome(o: Outcome, development: bool): Response {
    match o
    case Threw(e) => ServerError("Error ejecutando action", e, development)
    case Returned(v) =>
      if Nullish(v) then ServerError("Error ejecutando action", ReadError(v, "success"), development)
      else Response(200, v)
  }

  function ActionWithoutHandler(a: ActionDef, actionId: string, body: Value, development: bool): Response {
    if Nullish(body) then ServerError("Error ejecutando action", ReadError(body, "context"), development)
    else Response(200, Obj(map[
      "success" := Bool(true),
      "message" := Str("Action " + Quoted(a.labelText) + " ejecutada (sin handler real definido)"),
      "actionId" := Str(actionId),
      "contextReceived" := Or(Get(body, "context"), Str("unknown")),
      "warning" := Str("Action sin handler - define handler en backend/actions.ts")]))
  }

  /** POST /sandbox/execute-action/:actionId */
  function ExecuteAction(p: seq<ActionDef>, actionId: string, body: Value, development: bool): (r: Response)
    ensures r.status in {200, 404, 500}
    ensures r.status == 404 <==> forall i :: 0 <= i < |p| ==> p[i].id != actionId
    ensures r.status == 404 ==> r == ActionNotFound(p, actionId)
    ensures forall i | FirstWith(Ids(p, ActionId), actionId, i) ::
      match p[i].handler
      case Callable(run) => r == ActionOutcome(run(body), development)
      case NoHandler => r == ActionWithoutHandler(p[i], actionId, body, development)
  {
    match FindFirst(Ids(p, ActionId), actionId)
    case None => ActionNotFound(p, actionId)
    case Some(i) =>
      match p[i].handler
      case Callable(run) => ActionOutcome(run(body), development)
      case NoHandler => ActionWithoutHandler(p[i], actionId, body, development)
  }

  /** A handler that resolves to a non-null result is answered with 200 and that very result */
  lemma ActionResultPassesThrough(o: Outcome, development: bool)
    requires o.Returned? && !Nullish(o.value)
    ensures ActionOutcome(o, development) == Response(200, o.value)
  {
  }

  /** The echo round trip: a handler answering `{success: true, data: payload}` hands the payload back untouched */
  lemma EchoRoundTrip(p: seq<ActionDef>, i: nat, body: Value, development: bool)
    requires i < |p| && FirstWith(Ids(p, ActionId), p[i].id, i) && p[i].handler.Callable?
    requires p[i].handler.run(body) == Returned(ActionResultValue(ActionResult(true, "", Some(body), None, None, None, None, None)))
    ensures var r := ExecuteAction(p, p[i].id, body, development);
            r.status == 200 && Get(r.body, "data") == body
  {
    var v := ActionResultValue(ActionResult(true, "", Some(body), None, None, None, None, None));
    assert Get(v, "data") == body && v.Obj?;
    var r := ExecuteAction(p, p[i].id, body, development);
    assert r == ActionOutcome(Returned(v), development);
    ActionResultPassesThrough(Returned(v), development);
  }

  /** Handler failures, including a handler that returns nothing, surface as 500 with `success: false` */
  lemma ActionFailureIs500(o: Outcome, development: bool)
    requires o.Threw? || (o.Returned? && Nullish(o.value))
    ensures var r := ActionOutcome(o, development);
            r.status == 500 && Get(r.body, "success") == Bool(false) && Truthy(Get(r.body, "error"))
            && Get(r.body, "message") == Str("Error ejecutando action")
    ensures o.Threw? ==> Get(ActionOutcome(o, development).body, "error") == Or(o.error.message, Str("Error desconocido"))
    ensures o.Returned? ==> Get(ActionOutcome(o, development).body, "error") == Str(ReadErrorMessage(o.value, "success"))
    ensures o.Threw? ==> Get(ActionOutcome(o, development).body, "stack") == (if development then o.error.stack else Undefined)
  {
  }

  /** A definition without a handler is a flagged success: 200, `success: true`, a warning and no `error` member */
  lemma MissingHandlerIsFlaggedSuccess(a: ActionDef, actionId: string, body: Value, development: bool)
    requires !Nullish(body)
    ensures var r := ActionWithoutHandler(a, actionId, body, development);
            r.status == 200 && Get(r.body, "success") == Bool(true) && r.body.Obj?
            && "warning" in r.body.fields && "error" !in r.body.fields
            && (Truthy(Get(body, "context")) ==> Get(r.body, "contextReceived") == Get(body, "context"))
            && (!Truthy(Get(body, "context")) ==> Get(r.body, "contextReceived") == Str("unknown"))
  {
  }

  /** A later definition with an id already taken is never executed: replacing it changes no answer */
  lemma {:induction false} LaterDuplicateIsShadowed(p: seq<ActionDef>, i: nat, j: nat, other: ActionDef,
                                                   body: Value, development: bool)
    requires i < j < |p| && p[i].id == p[j].id && other.id == p[j].id
    ensures ExecuteAction(p[j := other], p[i].id, body, development) == ExecuteAction(p, p[i].id, body, development)
  {
    var q := p[j := other];
    var ids, qids := Ids(p, ActionId), Ids(q, ActionId);
    assert ids == qids by {
      assert forall k :: 0 <= k < |p| ==> ids[k] == qids[k];
    }
    assert p[i].id in ids by { assert ids[i] == p[i].id; }
    var k := FindFirst(ids, p[i].id).value;
    assert FirstWith(ids, p[i].id, k);
    assert q[k] == p[k];
  }

  /** The 404 answer lists every loaded id, duplicates included, in load order */
  lemma NotFoundListsIds(p: seq<ActionDef>, actionId: string, development: bool)
    requires forall i :: 0 <= i < |p| ==> p[i].id != actionId
    ensures var r := ExecuteAction(p, actionId, Obj(map[]), development);
            r.status == 404 && Get(r.body, "success") == Bool(false)
            && Get(r.body, "availableActions").Arr?
            && |Get(r.body, "availableActions").elems| == |p|
            && forall k :: 0 <= k < |p| ==> Get(r.body, "availableActions").elems[k] == Str(p[k].id)
  {
  }

  // --- hooks ---

  /** The declared event disagrees with the one the caller supplied; the server only logs this */
  predicate EventMismatch(h: HookDef, body: Value) {
    h.event.Some? && Truthy(Get(body, "event")) && Get(body, "event") != Str(EventName(h.event.value))
  }

  /** The payload a hook handler receives: `body.data || body` */
  function HookArgument(body: Value): Value {
    Or(Get(body, "data"), body)
  }

  /** The envelope built from a hook handler's result, which may be undefined */
  function HookEnvelope(h: HookDef, hookId: string, body: Value, result: Value): Value {
    Obj(map[
      "success" := Bool(Get(result, "success") != Bool(false)),
      "message" := Or(Get(result, "message"), Str("Hook " + Quoted(h.id) + " ejecutado")),
      "hookId" := Str(hookId),
      "event" := Get(body, "event"),
      "data" := Get(result, "data"),
      "executionTime" := Get(result, "executionTime")])
  }

  function HookNotFound(p: seq<HookDef>, hookId: string): Response {
    Response(404, Obj(map[
      "success" := Bool(false),
      "error" := Str("Hook " + Quoted(hookId) + " no encontrado"),
      "availableHooks" := StrList(Ids(p, HookId))]))
  }

  function HookWithoutHandler(h: HookDef, hookId: string, body: Value): Response {
    Response(200, Obj(map[
      "success" := Bool(true),
      "message" := Str("Hook " + Quoted(h.id) + " registrado (sin handler en sandbox)"),
      "hookId" := Str(hookId),
      "event" := Get(body, "event"),
      "warning" := Str("Hook sin handler disponible en sandbox")]))
  }

  function HookOutcome(h: HookDef, hookId: string, body: Value, o: Outcome, development: bool): Response {
    match o
    case Threw(e) => ServerError("Error disparando hook", e, development)
    case Returned(v) => Response(200, HookEnvelope(h, hookId, body, v))
  }

  /** POST /sandbox/dispatch-hook/:hookId; `body.event` is read (for logging) before the lookup */
  function DispatchHook(p: seq<HookDef>, hookId: string, body: Value, development: bool): (r: Response)
    ensures r.status in {200, 404, 500}
    ensures Nullish(body) ==> r.status == 500
    ensures !Nullish(body) ==> (r.status == 404 <==> forall i :: 0 <= i < |p| ==> p[i].id != hookId)
    ensures !Nullish(body) && r.status == 404 ==> r == HookNotFound(p, hookId)
    ensures !Nullish(body) ==> forall i | FirstWith(Ids(p, HookId), hookId, i) ::
      match p[i].handler
      case Callable(run) => r == HookOutcome(p[i], hookId, body, run(HookArgument(body)), development)
      case NoHandler => r == HookWithoutHandler(p[i], hookId, body)
  {
    if Nullish(body) then ServerError("Error disparando hook", ReadError(body, "event"), development)
    else match FindFirst(Ids(p, HookId), hookId)
      case None => HookNotFound(p, hookId)
      case Some(i) =>
        match p[i].handler
        case Callable(run) => HookOutcome(p[i], hookId, body, run(HookArgument(body)), development)
        case NoHandler => HookWithoutHandler(p[i], hookId, body)
  }

  /** A throwing hook handler surfaces as 500 with the error's message, or the generic one when it has none */
  lemma HookFailureIs500(h: HookDef, hookId: string, body: Value, e: Thrown, development: bool)
    ensures var r := HookOutcome(h, hookId, body, Threw(e), development);
            r.status == 500 && Get(r.body, "success") == Bool(false)
            && Get(r.body, "message") == Str("Error disparando hook")
            && Get(r.body, "error") == Or(e.message, Str("Error desconocido")) && Truthy(Get(r.body, "error"))
            && Get(r.body, "stack") == (if development then e.stack else Undefined)
  {
  }

  /** A hook whose handler resolves to nothing counts as a success with the default message */
  lemma VoidHookResultIsSuccess(h: HookDef, hookId: string, body: Value, development: bool)
    ensures var r := HookOutcome(h, hookId, body, Returned(Undefined), development);
            r.status == 200 && Get(r.body, "success") == Bool(true)
            && Get(r.body, "message") == Str("Hook \"" + h.id + "\" ejecutado")
  {
  }

  /** Only an explicit `success: false` makes a hook envelope unsuccessful */
  lemma HookSuccessUnlessExplicitFalse(h: HookDef, hookId: string, body: Value, result: Value)
    ensures Get(HookEnvelope(h, hookId, body, result), "success") == Bool(false)
            <==> Get(result, "success") == Bool(false)
  {
  }

  /** The hook's answers depend on its id and handler, not on its declared event */
  lemma AnswersIgnoreEvent(h1: HookDef, h2: HookDef, hookId: string, body: Value, o: Outcome, development: bool)
    requires h1.id == h2.id
    ensures HookOutcome(h1, hookId, body, o, development) == HookOutcome(h2, hookId, body, o, development)
    ensures HookWithoutHandler(h1, hookId, body) == HookWithoutHandler(h2, hookId, body)
  {
  }

  /** A mismatch between declared and supplied event changes nothing in the answer */
  lemma {:induction false} EventMismatchOnlyLogs(p: seq<HookDef>, k: nat, e: Option<HookEvent>,
                                                 hookId: string, body: Value, development: bool)
    requires k < |p|
    ensures DispatchHook(p[k := p[k].(event := e)], hookId, body, development)
            == DispatchHook(p, hookId, body, development)
  {
    var q := p[k := p[k].(event := e)];
    assert Ids(q, HookId) == Ids(p, HookId) by {
      assert forall m :: 0 <= m < |p| ==> Ids(q, HookId)[m] == Ids(p, HookId)[m];
    }
    if !Nullish(body) {
      match FindFirst(Ids(p, HookId), hookId)
      case None =>
        assert HookNotFound(q, hookId) == HookNotFound(p, hookId);
      case Some(i) =>
        assert q[i].id == p[i].id && q[i].handler == p[i].handler;
        match p[i].handler
        case Callable(run) =>
          AnswersIgnoreEvent(q[i], p[i], hookId, body, run(HookArgument(body)), development);
        case NoHandler =>
          AnswersIgnoreEvent(q[i], p[i], hookId, body, Returned(Undefined), development);
    }
  }

  /** When the body carries truthy `data`, that is all the handler sees: other members of the body only reach the echoed `event` */
  lemma HookSeesOnlyData(p: seq<HookDef>, hookId: string, b1: Value, b2: Value, development: bool)
    requires !Nullish(b1) && !Nullish(b2)
    requires Truthy(Get(b1, "data")) && Get(b1, "data") == Get(b2, "data")
    requires Get(b1, "event") == Get(b2, "event")
    ensures DispatchHook(p, hookId, b1, development) == DispatchHook(p, hookId, b2, development)
  {
    assert HookArgument(b1) == HookArgument(b2);
  }

  // --- introspection ---

  /** GET /sandbox/plugin-info: manifest members with their fallbacks */
  function PluginInfo(manifest: Value): (v: Value)
    ensures Get(v, "name") == Get(manifest, "name")
    ensures Truthy(Get(manifest, "displayName")) ==> Get(v, "displayName") == Get(manifest, "displayName")
    ensures !Truthy(Get(manifest, "displayName")) ==> Get(v, "displayName") == Get(manifest, "name")
    ensures forall k | k in ["fieldTypes", "actions", "hooks", "integrations"] ::
      var declared := Get(Get(manifest, "capabilities"), k);
      Get(v, k) == (if Truthy(declared) then declared else Arr([]))
    ensures Truthy(Get(manifest, "capabilities")) ==> Get(v, "capabilities") == Get(manifest, "capabilities")
    ensures !Truthy(Get(manifest, "capabilities")) ==> Get(v, "capabilities") == Obj(map[])
    ensures Truthy(Get(v, "capabilities"))
    ensures Get(v, "description") == Get(manifest, "description")
  {
    var caps := Get(manifest, "capabilities");
    Obj(map[
      "name" := Get(manifest, "name"),
      "displayName" := Or(Get(manifest, "displayName"), Get(manifest, "name")),
      "description" := Get(manifest, "description"),
      "capabilities" := Or(caps, Obj(map[])),
      "fieldTypes" := Or(Get(caps, "fieldTypes"), Arr([])),
      "actions" := Or(Get(caps, "actions"), Arr([])),
      "hooks" := Or(Get(caps, "hooks"), Arr([])),
      "integrations" := Or(Get(caps, "integrations"), Arr([]))])
  }

  /** GET /health; the timestamp is the caller's clock reading */
  function Health(manifest: Value, timestamp: string): (v: Value)
    ensures Get(v, "status") == Str("ok") && Get(v, "plugin") == Get(manifest, "name")
    ensures Get(v, "displayName") == Get(PluginInfo(manifest), "displayName")
  {
    Obj(map[
      "status" := Str("ok"),
      "plugin" := Get(manifest, "name"),
      "displayName" := Or(Get(manifest, "displayName"), Get(manifest, "name")),
      "timestamp" := Str(timestamp)])
  }
}
