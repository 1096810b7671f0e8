/**
 * The pure logic inside the DevApp development shell
 * (src/sandbox/frontend/DevApp.tsx): which endpoint an action calls, how
 * cards are bucketed and their configuration components collected, which
 * mockup feeds an action run, when a run is refused, how the backend's
 * answer is wrapped, and the combined schema/template list. Props and
 * manifest entries are JavaScript values; rendering and effects are not
 * modelled.
 */
module DevApp {
  import opened Common
  import opened Js

  // ---------------------------------------------------------------------
  // Endpoint resolution
  // ---------------------------------------------------------------------

  /** `{ method, path }` */
  function Endpoint(verb: Value, path: Value): Value {
    Obj(map["method" := verb, "path" := path])
  }

  /** The conventional route of an action on the plugin backend */
  function ConventionPath(pluginName: string, actionId: string): string {
    "/api/plugins/" + pluginName + "/" + actionId
  }

  /** `getActionEndpoint(actionId, actionData)`; `actionEndpoints` is the optional prop */
  function GetActionEndpoint(pluginName: string, actionEndpoints: Value, actionId: string, actionData: Value): (r: Value)
    ensures Truthy(actionEndpoints) && Truthy(Get(actionEndpoints, actionId)) ==> r == Get(actionEndpoints, actionId)
    ensures !(Truthy(actionEndpoints) && Truthy(Get(actionEndpoints, actionId))) ==>
      r.Obj? && Truthy(Get(r, "method"))
    ensures !(Truthy(actionEndpoints) && Truthy(Get(actionEndpoints, actionId))) && Truthy(Get(actionData, "endpoint")) ==>
      r == Endpoint(Or(Get(Get(actionData, "endpoint"), "method"), Str("POST")), Get(Get(actionData, "endpoint"), "path"))
    ensures !(Truthy(actionEndpoints) && Truthy(Get(actionEndpoints, actionId))) && !Truthy(Get(actionData, "endpoint")) ==>
      Get(r, "method") == Str("POST")
  {
    if Truthy(actionEndpoints) && Truthy(Get(actionEndpoints, actionId)) then Get(actionEndpoints, actionId)
    else if Truthy(Get(actionData, "endpoint")) then
      var ep := Get(actionData, "endpoint");
      Endpoint(Or(Get(ep, "method"), Str("POST")), Get(ep, "path"))
    else if Truthy(Get(actionData, "path")) then Endpoint(Str("POST"), Get(actionData, "path"))
    else Endpoint(Str("POST"), Str(ConventionPath(pluginName, actionId)))
  }

  /** Without any configuration the action is posted to its conventional route */
  lemma ConventionIsTheFallback(pluginName: string, actionEndpoints: Value, actionId: string, actionData: Value)
    requires !Truthy(Get(actionEndpoints, actionId))
    requires !Truthy(Get(actionData, "endpoint")) && !Truthy(Get(actionData, "path"))
    ensures GetActionEndpoint(pluginName, actionEndpoints, actionId, actionData)
         == Endpoint(Str("POST"), Str(ConventionPath(pluginName, actionId)))
  {
  }

  /** A manifest `path` is used only when neither an override nor a manifest `endpoint` is given */
  lemma ManifestPathPrecedence(pluginName: string, actionEndpoints: Value, actionId: string, actionData: Value)
    requires Truthy(Get(actionData, "path"))
    ensures var r := GetActionEndpoint(pluginName, actionEndpoints, actionId, actionData);
      (Truthy(actionEndpoints) && Truthy(Get(actionEndpoints, actionId))) || Truthy(Get(actionData, "endpoint"))
      || r == Endpoint(Str("POST"), Get(actionData, "path"))
  {
  }

  // ---------------------------------------------------------------------
  // Cards
  // ---------------------------------------------------------------------

  /** The elements of `s` at which `location` equals `loc`, skipping falsy cards, in order */
  function CardsAt(s: seq<Value>, loc: string): (r: seq<Value>)
    ensures |r| <= |s|
    ensures forall c :: c in r <==> c in s && Truthy(c) && Get(c, "location") == Str(loc)
  {
    if |s| == 0 then []
    else (if Truthy(s[0]) && Get(s[0], "location") == Str(loc) then [s[0]] else []) + CardsAt(s[1..], loc)
  }

  /** Filtering distributes over concatenation, so the relative order of cards is kept */
  lemma {:induction false} CardsAtAppend(s: seq<Value>, t: seq<Value>, loc: string)
    ensures CardsAt(s + t, loc) == CardsAt(s, loc) + CardsAt(t, loc)
  {
    if |s| > 0 {
      assert (s + t)[1..] == s[1..] + t;
      CardsAtAppend(s[1..], t, loc);
    } else {
      assert s + t == t;
    }
  }

  datatype CardBuckets = CardBuckets(generate: seq<Value>, distribute: seq<Value>, automations: seq<Value>, integrations: seq<Value>)

  /** `cardsByLocation`; `cards` is None for a `null` prop (`undefined` has already become `[]`) */
  function CardsByLocation(cards: Option<seq<Value>>): (r: CardBuckets)
    ensures var s := cards.GetOr([]);
      r.generate == CardsAt(s, "generate") && r.distribute == CardsAt(s, "distribute")
      && r.automations == CardsAt(s, "automations") && r.integrations == CardsAt(s, "integrations")
  {
    var s := cards.GetOr([]);
    CardBuckets(CardsAt(s, "generate"), CardsAt(s, "distribute"), CardsAt(s, "automations"), CardsAt(s, "integrations"))
  }

  /** Every card appears in exactly the bucket of its location, and a card with another location in none */
  lemma CardInItsBucketOnly(cards: seq<Value>, c: Value)
    requires c in cards && Truthy(c)
    ensures var b := CardsByLocation(Some(cards));
      (c in b.generate <==> Get(c, "location") == Str("generate"))
      && (c in b.distribute <==> Get(c, "location") == Str("distribute"))
      && (c in b.automations <==> Get(c, "location") == Str("automations"))
      && (c in b.integrations <==> Get(c, "location") == Str("integrations"))
  {
  }

  /** `card && card.configComponent`: the card puts a component into the map */
  predicate Contributes(card: Value) {
    Truthy(card) && Truthy(Get(card, "configComponent"))
  }

  /** `acc[card.id]`: the property key is the id converted to a string */
  function CardId(card: Value): string {
    ToJsString(Get(card, "id"))
  }

  /** The ids of the cards that contribute a component */
  function ComponentIds(cards: seq<Value>): set<string> {
    set c | c in cards && Contributes(c) :: CardId(c)
  }

  /** `i` is the last contributing card carrying its id */
  predicate LastComponentCard(cards: seq<Value>, i: int) {
    0 <= i < |cards| && Contributes(cards[i])
    && forall j :: i < j < |cards| && Contributes(cards[j]) ==> CardId(cards[j]) != CardId(cards[i])
  }

  /**
   * `m` is the card component map of `cards` with `provided` spread over it:
   * one key per contributing card id or provided name, provided components
   * win, and otherwise the component of the last card with the id is kept
   */
  predicate IsComponentMap(cards: seq<Value>, provided: map<string, Value>, m: map<string, Value>) {
    m.Keys == ComponentIds(cards) + provided.Keys
    && (forall k :: k in provided ==> m[k] == provided[k])
    && (forall i | 0 <= i < |cards| && LastComponentCard(cards, i) && CardId(cards[i]) !in provided ::
          m[CardId(cards[i])] == Get(cards[i], "configComponent"))
  }

  /** The outcome of the reduce: the component map, or the exception it raised */
  datatype Extraction = Extracted(components: map<string, Value>) | ExtractThrew(error: Thrown)

  /** Reducing a card list into `{ [card.id]: card.configComponent }`: Threw where a card is `null` or `undefined` */
  function ExtractComponents(cards: seq<Value>): (r: Extraction)
    ensures r.ExtractThrew? <==> exists i :: 0 <= i < |cards| && Nullish(cards[i])
    ensures r.Extracted? ==> forall k :: k in r.components ==> Truthy(r.components[k])
    ensures r.Extracted? ==> IsComponentMap(cards, map[], r.components)
  {
    var r := ExtractFrom(map[], cards);
    assert r.Extracted? ==> IsComponentMap(cards, map[], r.components) by {
      if r.Extracted? {
        GuardedAgreesWhenNoNullCards(map[], cards);
        assert ExtractComponentsGuarded(cards) == GuardedFrom(map[], cards) == r.components;
      }
    }
    r
  }

  /** The reduce step by step, starting from accumulator `acc` */
  function ExtractFrom(acc: map<string, Value>, cards: seq<Value>): (r: Extraction)
    requires forall k :: k in acc ==> Truthy(acc[k])
    ensures r.ExtractThrew? <==> exists i :: 0 <= i < |cards| && Nullish(cards[i])
    ensures r.Extracted? ==> forall k :: k in r.components ==> Truthy(r.components[k])
    ensures r.Extracted? ==> acc.Keys <= r.components.Keys
    decreases |cards|
  {
    if |cards| == 0 then Extracted(acc)
    else
      var card := cards[0];
      if Nullish(card) then
        ExtractThrew(ReadError(card, "configComponent"))
      else
        var next := if Truthy(Get(card, "configComponent")) then acc[CardId(card) := Get(card, "configComponent")] else acc;
        var r := ExtractFrom(next, cards[1..]);
        assert forall i :: 1 <= i < |cards| ==> cards[i] == cards[1..][i - 1];
        r
  }

  /** The DevApp's extraction as written: a `null` entry throws, although `cardsByLocation` skips it */
  lemma NullCardBreaksExtraction()
    ensures CardsByLocation(Some([Null])) == CardBuckets([], [], [], [])
    ensures ExtractComponents([Null]).ExtractThrew?
    ensures ExtractComponents([Null]).error == ReadError(Null, "configComponent")
  {
    assert exists i :: 0 <= i < |[Null]| && Nullish([Null][i]) by {
      assert Nullish([Null][0]);
    }
  }

  /** The extraction with the same guard as `cardsByLocation` (`card && card.configComponent`): it never throws */
  function ExtractComponentsGuarded(cards: seq<Value>): (r: map<string, Value>)
    ensures forall k :: k in r ==> Truthy(r[k])
    ensures IsComponentMap(cards, map[], r)
  {
    GuardedFromKeys(map[], cards);
    forall i | LastComponentCard(cards, i)
      ensures CardId(cards[i]) in GuardedFrom(map[], cards)
      ensures GuardedFrom(map[], cards)[CardId(cards[i])] == Get(cards[i], "configComponent")
    {
      GuardedFromLast(map[], cards, i);
    }
    GuardedFrom(map[], cards)
  }

  function GuardedFrom(acc: map<string, Value>, cards: seq<Value>): (r: map<string, Value>)
    ensures (forall k :: k in acc ==> Truthy(acc[k])) ==> forall k :: k in r ==> Truthy(r[k])
    ensures acc.Keys <= r.Keys
    decreases |cards|
  {
    if |cards| == 0 then acc
    else
      var card := cards[0];
      var next := if Contributes(card) then acc[CardId(card) := Get(card, "configComponent")] else acc;
      GuardedFrom(next, cards[1..])
  }

  /** The cards split into the first one and the rest */
  lemma ComponentIdsCons(cards: seq<Value>)
    requires |cards| > 0
    ensures ComponentIds(cards) == (if Contributes(cards[0]) then {CardId(cards[0])} else {}) + ComponentIds(cards[1..])
  {
    assert forall c :: c in cards <==> c == cards[0] || c in cards[1..];
  }

  /** The guarded reduce adds exactly the contributing cards' ids */
  lemma {:induction false} GuardedFromKeys(acc: map<string, Value>, cards: seq<Value>)
    ensures GuardedFrom(acc, cards).Keys == acc.Keys + ComponentIds(cards)
    decreases |cards|
  {
    if |cards| > 0 {
      var card := cards[0];
      var next := if Contributes(card) then acc[CardId(card) := Get(card, "configComponent")] else acc;
      GuardedFromKeys(next, cards[1..]);
      ComponentIdsCons(cards);
    } else {
      assert ComponentIds(cards) == {};
    }
  }

  /** A key that no remaining card writes keeps its accumulated value */
  lemma {:induction false} GuardedFromUntouched(acc: map<string, Value>, cards: seq<Value>, k: string)
    requires k in acc
    requires forall j :: 0 <= j < |cards| && Contributes(cards[j]) ==> CardId(cards[j]) != k
    ensures k in GuardedFrom(acc, cards) && GuardedFrom(acc, cards)[k] == acc[k]
    decreases |cards|
  {
    if |cards| > 0 {
      var card := cards[0];
      var next := if Contributes(card) then acc[CardId(card) := Get(card, "configComponent")] else acc;
      assert Contributes(cards[0]) ==> CardId(cards[0]) != k;
      forall j | 0 <= j < |cards[1..]| && Contributes(cards[1..][j])
        ensures CardId(cards[1..][j]) != k
      {
        assert cards[1..][j] == cards[j + 1];
      }
      GuardedFromUntouched(next, cards[1..], k);
    }
  }

  /** The last contributing card with an id decides what the guarded reduce stores under it */
  lemma {:induction false} GuardedFromLast(acc: map<string, Value>, cards: seq<Value>, i: int)
    requires LastComponentCard(cards, i)
    ensures CardId(cards[i]) in GuardedFrom(acc, cards)
    ensures GuardedFrom(acc, cards)[CardId(cards[i])] == Get(cards[i], "configComponent")
    decreases |cards|
  {
    var card := cards[0];
    var next := if Contributes(card) then acc[CardId(card) := Get(card, "configComponent")] else acc;
    if i == 0 {
      forall j | 0 <= j < |cards[1..]| && Contributes(cards[1..][j])
        ensures CardId(cards[1..][j]) != CardId(cards[0])
      {
        assert cards[1..][j] == cards[j + 1];
      }
      GuardedFromUntouched(next, cards[1..], CardId(cards[0]));
    } else {
      assert cards[1..][i - 1] == cards[i];
      forall j | i - 1 < j < |cards[1..]| && Contributes(cards[1..][j])
        ensures CardId(cards[1..][j]) != CardId(cards[i])
      {
        assert cards[1..][j] == cards[j + 1];
      }
      assert LastComponentCard(cards[1..], i - 1);
      GuardedFromLast(next, cards[1..], i - 1);
    }
  }

  /** Where the written extraction succeeds, the guarded one gives the same map */
  lemma {:induction false} GuardedAgreesWhenNoNullCards(acc: map<string, Value>, cards: seq<Value>)
    requires forall k :: k in acc ==> Truthy(acc[k])
    requires ExtractFrom(acc, cards).Extracted?
    ensures GuardedFrom(acc, cards) == ExtractFrom(acc, cards).components
    decreases |cards|
  {
    if |cards| > 0 {
      assert !Nullish(cards[0]);
      var card := cards[0];
      var next := if Truthy(Get(card, "configComponent")) then acc[CardId(card) := Get(card, "configComponent")] else acc;
      GuardedAgreesWhenNoNullCards(next, cards[1..]);
    }
  }

  /** The card component map: extracted components, overridden key by key by the provided ones */
  function CardComponents(extracted: map<string, Value>, provided: map<string, Value>): (r: map<string, Value>)
    ensures r.Keys == extracted.Keys + provided.Keys
    ensures forall k :: k in provided ==> r[k] == provided[k]
    ensures forall k :: k in extracted && k !in provided ==> r[k] == extracted[k]
  {
    extracted + provided
  }

  /** The component map as written: it fails with the extraction */
  function CardComponentsAsWritten(cards: seq<Value>, provided: map<string, Value>): (r: Extraction)
    ensures r.ExtractThrew? <==> exists i :: 0 <= i < |cards| && Nullish(cards[i])
    ensures r.Extracted? ==> IsComponentMap(cards, provided, r.components)
  {
    match ExtractComponents(cards)
    case Extracted(m) => Extracted(CardComponents(m, provided))
    case ExtractThrew(e) => ExtractThrew(e)
  }

  /** The component map with the guarded extraction, as the rest of this model uses it */
  function CardComponentMap(cards: seq<Value>, provided: map<string, Value>): (r: map<string, Value>)
    ensures IsComponentMap(cards, provided, r)
  {
    CardComponents(ExtractComponentsGuarded(cards), provided)
  }

  /** The corrected map agrees with the written one on every card list the written one accepts */
  lemma CardComponentMapRefinesAsWritten(cards: seq<Value>, provided: map<string, Value>)
    requires CardComponentsAsWritten(cards, provided).Extracted?
    ensures CardComponentMap(cards, provided) == CardComponentsAsWritten(cards, provided).components
  {
    GuardedAgreesWhenNoNullCards(map[], cards);
  }

  /** Providing components that were already extracted changes nothing */
  lemma ProvidingTheExtractedIsNeutral(extracted: map<string, Value>)
    ensures CardComponents(extracted, extracted) == extracted
  {
  }

  // ---------------------------------------------------------------------
  // Running an action
  // ---------------------------------------------------------------------

  const CustomKey := "__CUSTOM__"

  /**
   * `currentMockup`: for the custom entry, the typed JSON (`parse` is
   * `JSON.parse`, None where it throws, which gives `data: null`), or
   * `null` when nothing was typed; otherwise the selected mockup, which is
   * `undefined` when the key is unknown.
   */
  function CurrentMockup(selected: Option<string>, customJson: string, mockups: map<string, Value>,
                         parse: string -> Option<Value>): (r: Value)
    ensures selected == Some(CustomKey) && customJson == "" ==> r == Null
    ensures selected == Some(CustomKey) && customJson != "" ==>
      Get(r, "label") == Str("Custom JSON") && Get(r, "data") == parse(customJson).GetOr(Null)
    ensures selected != Some(CustomKey) && !TruthyStr(selected) ==> r == Null
    ensures selected != Some(CustomKey) && TruthyStr(selected) ==>
      r == (if selected.value in mockups then mockups[selected.value] else Undefined)
  {
    if selected == Some(CustomKey) then
      if customJson != "" then Obj(map["label" := Str("Custom JSON"), "data" := parse(customJson).GetOr(Null)])
      else Null
    else if TruthyStr(selected) then
      if selected.value in mockups then mockups[selected.value] else Undefined
    else Null
  }

  /** The request the run button sends */
  datatype Request = Request(url: string, verb: Value, body: Value)

  /** What `fetch` and `response.json()` gave: a parsed answer, or an exception from either */
  datatype FetchOutcome = Responded(ok: bool, json: Value) | FetchFailed(error: Thrown)

  datatype RunResult = RunResult(request: Option<Request>, result: Value)

  /** `{ success: false, error }` */
  function Failure(message: string): Value {
    Obj(map["success" := Bool(false), "error" := Str(message)])
  }

  /** The guard before any request: None when the run may proceed */
  function RunGuard(currentMockup: Value, isCustom: bool, customJsonError: Option<string>, endpoint: Value, action: Value): (r: Option<Value>)
    ensures r.None? <==> Truthy(currentMockup) && !(isCustom && TruthyStr(customJsonError)) && Truthy(Get(endpoint, "path"))
    ensures !Truthy(currentMockup) ==> r == Some(Failure(
      if isCustom then "Escribí un JSON válido para ejecutar la action" else "Seleccioná un mockup para ejecutar la action"))
    ensures Truthy(currentMockup) && isCustom && TruthyStr(customJsonError) ==>
      r == Some(Failure("El JSON tiene errores. Corregí los errores antes de ejecutar."))
    ensures Truthy(currentMockup) && !(isCustom && TruthyStr(customJsonError)) && !Truthy(Get(endpoint, "path")) ==>
      r.Some? && Get(r.value, "success") == Bool(false) && Get(r.value, "error") == Str("Endpoint no disponible")
      && Get(Get(r.value, "data"), "message") == Str("Esta action no tiene endpoint HTTP configurado aún.")
      && Get(Get(r.value, "data"), "action") == Get(action, "id")
  {
    if !Truthy(currentMockup) then
      Some(Failure(if isCustom then "Escribí un JSON válido para ejecutar la action"
                   else "Seleccioná un mockup para ejecutar la action"))
    else if isCustom && TruthyStr(customJsonError) then
      Some(Failure("El JSON tiene errores. Corregí los errores antes de ejecutar."))
    else if !Truthy(Get(endpoint, "path")) then
      Some(Obj(map[
        "success" := Bool(false),
        "error" := Str("Endpoint no disponible"),
        "data" := Obj(map[
          "message" := Str("Esta action no tiene endpoint HTTP configurado aún."),
          "action" := Get(action, "id")])]))
    else None
  }

  /** The catch clause of the run: the exception's message, or a connection error */
  function CaughtFailure(e: Thrown): Value {
    Obj(map["success" := Bool(false), "error" := Or(e.message, Str("Error de conexión con el backend"))])
  }

  /** The result recorded for the backend's answer */
  function WrapResponse(action: Value, timestamp: string, outcome: FetchOutcome): (r: Value)
    ensures outcome.Responded? && outcome.ok ==>
      Get(r, "success") == Bool(true) && Get(r, "data") == Obj(Spread(outcome.json)["_timestamp" := Str(timestamp)]["_action" := Get(action, "id")])
    ensures outcome.Responded? && !outcome.ok && !Nullish(outcome.json) ==>
      r == Obj(map["success" := Bool(false),
                   "error" := Or(Or(Get(outcome.json, "error"), Get(outcome.json, "message")), Str("Error desconocido")),
                   "data" := outcome.json])
    ensures outcome.FetchFailed? ==> r == CaughtFailure(outcome.error)
  {
    match outcome
    case FetchFailed(e) => CaughtFailure(e)
    case Responded(ok, json) =>
      if ok then
        Obj(map[
          "success" := Bool(true),
          "message" := Str("Action \"" + ToJsString(Get(action, "label")) + "\" ejecutada correctamente"),
          "data" := Obj(Spread(json)["_timestamp" := Str(timestamp)]["_action" := Get(action, "id")])])
      else if Nullish(json) then
        // `result.error` on a null body throws inside the try; the catch reports the TypeError
        CaughtFailure(ReadError(json, "error"))
      else
        Obj(map[
          "success" := Bool(false),
          "error" := Or(Or(Get(json, "error"), Get(json, "message")), Str("Error desconocido")),
          "data" := json])
  }

  /** One click of the run button; `fetch` is consulted only when a request is sent */
  function RunAction(backendUrl: string, currentMockup: Value, isCustom: bool, customJsonError: Option<string>,
                     endpoint: Value, action: Value, timestamp: string, fetch: FetchOutcome): (r: RunResult)
    ensures r.request.None? <==> RunGuard(currentMockup, isCustom, customJsonError, endpoint, action).Some?
    ensures r.request.None? ==> r.result == RunGuard(currentMockup, isCustom, customJsonError, endpoint, action).value
    ensures Truthy(currentMockup) && isCustom && TruthyStr(customJsonError) ==>
      r.request.None? && r.result == Failure("El JSON tiene errores. Corregí los errores antes de ejecutar.")
    ensures Truthy(currentMockup) && !(isCustom && TruthyStr(customJsonError)) && !Truthy(Get(endpoint, "path")) ==>
      r.request.None? && Get(r.result, "error") == Str("Endpoint no disponible")
      && Get(Get(r.result, "data"), "action") == Get(action, "id")
    ensures r.request.Some? ==>
      r.request.value == Request(backendUrl + ToJsString(Get(endpoint, "path")), Get(endpoint, "method"), Get(currentMockup, "data"))
      && r.result == WrapResponse(action, timestamp, fetch)
  {
    match RunGuard(currentMockup, isCustom, customJsonError, endpoint, action)
    case Some(refusal) => RunResult(None, refusal)
    case None =>
      RunResult(Some(Request(backendUrl + ToJsString(Get(endpoint, "path")), Get(endpoint, "method"), Get(currentMockup, "data"))),
                WrapResponse(action, timestamp, fetch))
  }

  /** Every member of a successful answer reaches `data`, except the two the shell adds */
  lemma OkAnswerKeepsFields(action: Value, timestamp: string, json: Value, k: string)
    requires k in Spread(json) && k != "_timestamp" && k != "_action"
    ensures Get(Get(WrapResponse(action, timestamp, Responded(true, json)), "data"), k) == Spread(json)[k]
  {
  }

  /** A `null` error body is reported through the catch clause, as the TypeError of reading `error` */
  lemma NullErrorBodyIsTypeError(action: Value, timestamp: string)
    ensures Get(WrapResponse(action, timestamp, Responded(false, Null)), "error")
         == Str("Cannot read properties of null (reading 'error')")
  {
  }

  /**
   * With a selected mockup, no JSON error and no endpoint configuration, the
   * run always reaches the backend, at the conventional route.
   */
  lemma ConventionalRunIsSent(pluginName: string, backendUrl: string, actionEndpoints: Value, actionId: string,
                              action: Value, mockup: Value, timestamp: string, fetch: FetchOutcome)
    requires Truthy(mockup)
    requires !Truthy(Get(actionEndpoints, actionId))
    requires !Truthy(Get(action, "endpoint")) && !Truthy(Get(action, "path"))
    ensures var endpoint := GetActionEndpoint(pluginName, actionEndpoints, actionId, action);
      RunAction(backendUrl, mockup, false, None, endpoint, action, timestamp, fetch).request
        == Some(Request(backendUrl + ConventionPath(pluginName, actionId), Str("POST"), Get(mockup, "data")))
  {
    ConventionIsTheFallback(pluginName, actionEndpoints, actionId, action);
  }

  /** Choosing the custom entry without typing anything refuses the run with the custom-JSON message */
  lemma EmptyCustomJsonIsRefused(mockups: map<string, Value>, parse: string -> Option<Value>, customJsonError: Option<string>,
                                 endpoint: Value, action: Value)
    ensures RunGuard(CurrentMockup(Some(CustomKey), "", mockups, parse), true, customJsonError, endpoint, action)
         == Some(Failure("Escribí un JSON válido para ejecutar la action"))
  {
  }

  // ---------------------------------------------------------------------
  // Schemas and templates
  // ---------------------------------------------------------------------

  /** `{ ...v, id, type }` */
  function Tagged(v: Value, id: string, kind: string): Value {
    Obj(Spread(v)["id" := Str(id)]["type" := Str(kind)])
  }

  function SchemaId(i: nat): string { "schema-" + NatToString(i) }
  function TemplateId(i: nat): string { "template-" + NatToString(i) }

  /** `xs.map((x, i) => ({ ...x, id: prefix + i, type: kind }))`, numbering from `start` */
  function TagAll(xs: seq<Value>, prefix: string, kind: string, start: nat): (r: seq<Value>)
    ensures |r| == |xs|
    ensures forall i :: 0 <= i < |xs| ==> r[i] == Tagged(xs[i], prefix + NatToString(start + i), kind)
    decreases |xs|
  {
    if |xs| == 0 then [] else [Tagged(xs[0], prefix + NatToString(start), kind)] + TagAll(xs[1..], prefix, kind, start + 1)
  }

  /** `allTemplates`: every schema, then every template */
  function AllTemplates(schemas: seq<Value>, templates: seq<Value>): (r: seq<Value>)
    ensures |r| == |schemas| + |templates|
    ensures forall i :: 0 <= i < |schemas| ==> r[i] == Tagged(schemas[i], SchemaId(i), "schema")
    ensures forall i :: 0 <= i < |templates| ==> r[|schemas| + i] == Tagged(templates[i], TemplateId(i), "template")
  {
    TagAll(schemas, "schema-", "schema", 0) + TagAll(templates, "template-", "template", 0)
  }

  /** The id each entry of `allTemplates` carries */
  function EntryId(schemaCount: nat, i: nat): string {
    if i < schemaCount then SchemaId(i) else TemplateId(i - schemaCount)
  }

  /** All ids are distinct, so `allTemplates.find(t => t.id === selected)` selects at most one entry */
  lemma TemplateIdsDistinct(schemaCount: nat, i: nat, j: nat)
    requires i != j
    ensures EntryId(schemaCount, i) != EntryId(schemaCount, j)
  {
    if i < schemaCount && j < schemaCount {
      NatToStringInjective(i, j);
      assert SchemaId(i)[7..] == NatToString(i) && SchemaId(j)[7..] == NatToString(j);
    } else if i >= schemaCount && j >= schemaCount {
      NatToStringInjective(i - schemaCount, j - schemaCount);
      assert TemplateId(i - schemaCount)[9..] == NatToString(i - schemaCount);
      assert TemplateId(j - schemaCount)[9..] == NatToString(j - schemaCount);
    } else {
      assert EntryId(schemaCount, i)[0] != EntryId(schemaCount, j)[0];
    }
  }

  /** The entries' ids are exactly `EntryId` */
  lemma AllTemplatesIds(schemas: seq<Value>, templates: seq<Value>, i: nat)
    requires i < |schemas| + |templates|
    ensures Get(AllTemplates(schemas, templates)[i], "id") == Str(EntryId(|schemas|, i))
  {
    if i >= |schemas| {
      assert AllTemplates(schemas, templates)[|schemas| + (i - |schemas|)] == Tagged(templates[i - |schemas|], TemplateId(i - |schemas|), "template");
    }
  }
}
