# Formara plugin SDK: a Dafny model of the sandbox and adapter logic

This project models the deterministic core of the Formara plugin SDK in
Dafny 4.11 and proves properties about it. The SDK is the toolkit a Formara
plugin is developed and run with. Each source file becomes one module; the
environment is passed in explicitly everywhere the code reads it. That
environment covers the browser `window`, `process.env`, the working
directory, the file system, the plugin's own modules, clocks and randomness.

- `SandboxServer` (dev/sandbox-server.ts): the development server of the
  plugin sandbox.
  - Discovery of `routes`, `actions` and `hooks` modules, with `.ts` before
    `.js` and the named export before the default export.
  - Lookup by id, first match wins.
  - The `execute-action` and `dispatch-hook` endpoints as pure functions
    from the registry, the id and the body to a status and a JSON body.
  - `plugin-info` and `/health`.
- `MaskedInput` (src/ui/components/masked-input.tsx): the digit mask
  `applyMask`, and the re-masking done on change and on blur.
- `MockupLoader` (dist/sandbox/frontend/mockup-loader.js): keys and labels
  of mockup files, and `loadMockupsFromPattern`.
- `Browser`: the standalone-mode rule shared by the api and auth adapters.
- `FrontendConfig` (frontend/config.ts): `resolveApiBase`, `api`,
  `FILE_BASE` and `fileUrl`.
- `ApiAdapter` (dist/sandbox/frontend/api-adapter.js): `getBaseUrl` and `api`.
- `AuthAdapter` (src/sandbox/frontend/auth-adapter.ts): `authHeaders` and
  the non-React branches of `useAuth`.
- `Crypto` (backend/utils/crypto.ts):
  - the derivation of `ENC_KEY`;
  - the `iv ‖ tag ‖ ciphertext` frame;
  - `encryptJSON`/`decryptJSON` over an abstract AES-GCM cipher and codec;
  - `generateUniqueId` and `formatDate`.
- `DevServer` (dist/sandbox/backend/dev-server.js): configuration defaults,
  the CORS origin rule, mock authentication, `/health` and the error handler.
- `DevApp` (src/sandbox/frontend/DevApp.tsx): the pure helpers of the
  development shell.
  - Endpoint precedence, card bucketing and the card component map.
  - The selected mockup, the run guard and the wrapping of the backend's
    answer.
  - The combined schema and template list.
- `PrismaService` (backend/services/prisma.service.ts): the lazy, cached
  `getPrismaClient` as a state machine, and the `sharedPrisma` forwarding.
- `PrismaAdapter` (dist/sandbox/backend/prisma-adapter.js): the
  working-directory rule, and the memoised client with its fallback.
- `ViteConfig` (dist/utils/vite-config.js): the `@core` alias table and
  the merge precedence of `createPluginViteConfig`.
- `Common` and `Js`: shared vocabulary.
  - `Common`: `Option` and string helpers (`startsWith`, `includes`,
    `replace`, decimal rendering).
  - `Js`: JavaScript values with truthiness, `||`, property reads,
    spreading, and the TypeError a read of `null`/`undefined` raises.

A handler that throws is answered with HTTP 500 (dev/sandbox-server.ts:143-151),
and so is an action handler that resolves to `null` or `undefined`, because
line 130 reads `result.success` on it. `SandboxServer.ExecuteAction` and
`SandboxServer.ActionFailureIs500` state this.

## Model

| member | source | states |
|---|---|---|
| SandboxServer.ActionResultValue | src/contracts/backend/actions.ts:21-38 | An `ActionResult` as a JavaScript object: `success` and `message` always present, `data` and `error` present exactly when set |
| SandboxServer.LoadRegistry | dev/sandbox-server.ts:31-65 | Routes exist iff a `routes.ts` or `routes.js` module exists, and are that module's default export, else the module itself; actions and hooks come from the `.ts` module if it exists, else from the `.js` one, else they are empty |
| SandboxServer.TsShadowsJs | dev/sandbox-server.ts:31-65 | When all three `.ts` modules exist, nothing at the `.js` paths affects the registry |
| SandboxServer.ExportShapesAgree | dev/sandbox-server.ts:48 | A list given as the named export or as the default export loads the same |
| SandboxServer.NamedExportWins | dev/sandbox-server.ts:48 | The named `actions`/`hooks` export takes precedence over the default export |
| SandboxServer.FindFirst | dev/sandbox-server.ts:114 | `find` by id returns the first definition carrying the id, and nothing iff no definition carries it |
| SandboxServer.FirstWithUnique | dev/sandbox-server.ts:114 | The first position of an id is unique |
| SandboxServer.Ids | dev/sandbox-server.ts:120 | `map(a => a.id)` lists every definition's id, position by position; the same for hooks at line 170 |
| SandboxServer.StrList | dev/sandbox-server.ts:120 | The id list becomes a JSON array of the same strings in the same order |
| SandboxServer.ExecuteAction | dev/sandbox-server.ts:105-152 | Status is 200, 404 or 500; 404 iff no action has the id, with the not-found body; otherwise the first action with the id decides, by its handler or its missing handler |
| SandboxServer.ActionResultPassesThrough | dev/sandbox-server.ts:125-132 | A handler resolving to a non-null result is answered with 200 and exactly that result |
| SandboxServer.EchoRoundTrip | dev/sandbox-server.ts:125-132 | A handler answering `{success: true, data: body}` hands the request body back unchanged under `data` |
| SandboxServer.ActionFailureIs500 | dev/sandbox-server.ts:128-151 | A throwing handler, or one that returns nothing, yields 500 with `success: false` and "Error ejecutando action"; `error` is the thrown message or "Error desconocido" (the TypeError's message for a missing result); `stack` only in development |
| SandboxServer.MissingHandlerIsFlaggedSuccess | dev/sandbox-server.ts:133-142 | An action without a handler yields 200, `success: true`, a `warning` and no `error`; `contextReceived` is the body's `context`, or `'unknown'` when that is falsy |
| SandboxServer.LaterDuplicateIsShadowed | dev/sandbox-server.ts:114 | Replacing a later definition that repeats an id never changes the answer for that id |
| SandboxServer.NotFoundListsIds | dev/sandbox-server.ts:116-122 | An unknown action id yields 404, `success: false` and `availableActions` listing every loaded id in load order, duplicates included |
| SandboxServer.DispatchHook | dev/sandbox-server.ts:155-213 | Status is 200, 404 or 500; a nullish body is a 500 (reading `event` throws); otherwise 404 iff no hook has the id, else the first hook with the id decides |
| SandboxServer.HookFailureIs500 | dev/sandbox-server.ts:204-211 | A throwing hook handler yields 500 with `success: false`, "Error disparando hook", the thrown message or "Error desconocido", and `stack` only in development |
| SandboxServer.VoidHookResultIsSuccess | dev/sandbox-server.ts:183-194 | A handler resolving to nothing gives 200, `success: true` and the default message `Hook "<id>" ejecutado` |
| SandboxServer.HookSuccessUnlessExplicitFalse | dev/sandbox-server.ts:188 | The envelope's `success` is false iff the result's `success` is exactly `false` |
| SandboxServer.AnswersIgnoreEvent | dev/sandbox-server.ts:187-202 | The answers for a hook depend on its id and handler, not on its declared event |
| SandboxServer.EventMismatchOnlyLogs | dev/sandbox-server.ts:175-177 | Changing any hook's declared event leaves every dispatch answer unchanged: a mismatch only logs |
| SandboxServer.HookSeesOnlyData | dev/sandbox-server.ts:183 | With truthy `body.data`, two bodies with the same `data` and `event` get the same answer: the handler sees only `data` |
| SandboxServer.PluginInfo | dev/sandbox-server.ts:91-102 | `displayName` falls back to `name`; `description` is the manifest's; `capabilities` is the manifest's when truthy, else `{}`; each capability list is the manifest's when truthy, else `[]` |
| SandboxServer.Health | dev/sandbox-server.ts:216-223 | `/health` reports `ok`, the plugin name and the same display name as `plugin-info` |
| MaskedInput.DigitsOf | src/ui/components/masked-input.tsx:33 | Removing non-digits leaves only digits, never lengthens the string, and leaves an all-digit string unchanged |
| MaskedInput.DigitsOfAppend | src/ui/components/masked-input.tsx:33 | Digit removal distributes over concatenation: it is a filter, keeping every digit in order |
| MaskedInput.FillLoop | src/ui/components/masked-input.tsx:34-44 | The two-index loop computes the slot-filling of the pattern with the digits |
| MaskedInput.ApplyPattern | src/ui/components/masked-input.tsx:32-49 | The imperative masking agrees with `ApplyMask` for every pattern |
| MaskedInput.FillShape | src/ui/components/masked-input.tsx:33-44 | Output position i is mask position i: literals copied, slots hold the digits in order; min(#digits, #slots) digits are placed; output ends on a slot unless surplus digits remain; no digits gives "" |
| MaskedInput.NoDigitsGivesEmpty | src/ui/components/masked-input.tsx:37 | A pattern mask applied to a value without digits gives "" |
| MaskedInput.NoSlotsLeavesValue | src/ui/components/masked-input.tsx:23-49 | No mask, or a pattern without `X`/`0`, leaves the value unchanged |
| MaskedInput.SlotsHoldDigits | src/ui/components/masked-input.tsx:33-41 | The output is no longer than the mask, and every slot position holds a digit |
| MaskedInput.DigitsOfFill | src/ui/components/masked-input.tsx:33-44 | With digit-free literals, re-extracting the digits of a masked value gives exactly the digits placed |
| MaskedInput.IdempotentWhenDigitsFit | src/ui/components/masked-input.tsx:85-96 | Masking twice equals masking once when the value's digits fit the slots |
| MaskedInput.SecondApplicationIsFixedPoint | src/ui/components/masked-input.tsx:85-96 | For any value, the second masking is already a fixed point |
| MaskedInput.SurplusDigitsBreakIdempotence | src/ui/components/masked-input.tsx:37-44 | As written: mask `XX-` turns `123` into `12-` and `12-` into `12`, so masking is not idempotent |
| MaskedInput.CappedIsIdempotent | src/ui/components/masked-input.tsx:22-50 | Corrected masking is idempotent for every value, and equals `applyMask` whenever the digits fit |
| MaskedInput.HandleChange | src/ui/components/masked-input.tsx:68-83 | The shown text is the masked typed text, reported iff there is an `onChange` |
| MaskedInput.HandleBlur | src/ui/components/masked-input.tsx:85-96 | With a mask and non-empty text the text is re-masked; a value is reported iff there is an `onChange` and re-masking changed the text |
| MaskedInput.BlurAfterChangeIsQuiet | src/ui/components/masked-input.tsx:68-96 | A blur right after typing reports nothing when the typed digits fit |
| MaskedInput.BlurAfterOverfullChangeReports | src/ui/components/masked-input.tsx:85-96 | With surplus digits the blur after typing does report a changed value |
| MockupLoader.LastSegment | dist/sandbox/frontend/mockup-loader.js:41 | `split('/').pop()` is the longest '/'-free suffix of the path |
| MockupLoader.LabelShape | dist/sandbox/frontend/mockup-loader.js:43-46 | A label is as long as its key; '-' becomes ' ', a character starting a piece is upper-cased, all others are kept |
| MockupLoader.LabelIsCharwise | dist/sandbox/frontend/mockup-loader.js:43-46 | Split–capitalise–join equals the character-by-character reading of the key |
| MockupLoader.LabelFromSplit | dist/sandbox/frontend/mockup-loader.js:43-46 | The character-by-character reading of any string is its first piece followed by the joined, capitalised remaining pieces |
| MockupLoader.AssignAllKeys | dist/sandbox/frontend/mockup-loader.js:47 | Assigning pairs into `{}` yields exactly the assigned keys |
| MockupLoader.AssignAllLast | dist/sandbox/frontend/mockup-loader.js:47 | Each key holds the value of its last assignment |
| MockupLoader.Entries | dist/sandbox/frontend/mockup-loader.js:41-50 | Each glob entry contributes its derived key, the label of that key and its module's `default`, unchanged |
| MockupLoader.ProcessedKeys | dist/sandbox/frontend/mockup-loader.js:39-50 | The record has one key per distinct derived key |
| MockupLoader.ProcessedLast | dist/sandbox/frontend/mockup-loader.js:39-50 | The last entry with a derived key is the one stored under it |
| MockupLoader.ProcessMockups | dist/sandbox/frontend/mockup-loader.js:37-53 | Keys are exactly the derived keys; under each is the label and data of the last entry deriving it |
| MockupLoader.EmptyGlobGivesEmptyRecord | dist/sandbox/frontend/mockup-loader.js:38-52 | No entries give `{}` |
| MockupLoader.AssignTwiceKeepsLast | dist/sandbox/frontend/mockup-loader.js:47 | Assigning a key twice keeps only the second value |
| MockupLoader.LaterFileWins | dist/sandbox/frontend/mockup-loader.js:39-50 | Of two files deriving the same key, the later one in iteration order is kept |
| MockupLoader.LoadMockupsFromPattern | dist/sandbox/frontend/mockup-loader.js:63-75 | Every pattern but the literal standard one yields `{}`; the standard one yields one key per derived key, holding the label and data of the last file deriving it |
| MockupLoader.StandardPatternIsProcessed | dist/sandbox/frontend/mockup-loader.js:58-75 | The standard pattern gives exactly the record `processMockups` builds from the glob |
| Browser.ParseInt | dist/sandbox/frontend/api-adapter.js:26 | `parseInt` is NaN iff the port does not start with a digit, and a decimal port reads as its value |
| Browser.IsStandaloneMode | dist/sandbox/frontend/api-adapter.js:15-30 | False without a window; only on hostname `localhost`; a `/dev.html` page is standalone; for a decimal port, standalone iff `/dev.html` or 5182 <= port < 6000 |
| Browser.PluginPortRangeIsStandalone | dist/sandbox/frontend/api-adapter.js:26-28 | Every port 5182..5999 written in decimal makes `localhost` standalone, whatever the path |
| Browser.CorePortsAreIntegrated | src/sandbox/frontend/auth-adapter.ts:20-39 | The core's ports 5173, 5174 and the empty port are integrated unless the page is `/dev.html` |
| Browser.LoopbackAddressIsIntegrated | dist/sandbox/frontend/api-adapter.js:22-29 | `127.0.0.1` is never standalone |
| FrontendConfig.ResolveApiBase | frontend/config.ts:8-34 | On a local host port 5174 gives the sandbox backend and 5173 gives ""; otherwise `VITE_API_URL` if truthy, else `http://localhost:3000` |
| FrontendConfig.RelativeBaseOnlyOnCoreDevServer | frontend/config.ts:14-33 | The base is "" iff the page is on a local host at port 5173 |
| FrontendConfig.Api | frontend/config.ts:41-44 | `api("")` is the base; otherwise the URL starts with the base, continues with '/', ends with the path, and adds at most one character |
| FrontendConfig.ApiAddsSlashOnce | frontend/config.ts:43 | `api("x") == api("/x")` |
| FrontendConfig.FileBase | frontend/config.ts:49 | `FILE_BASE` equals `API_BASE` when that is non-empty, and is `http://localhost:3000` when it is relative |
| FrontendConfig.CoreDevServerFilesGoToPort3000 | frontend/config.ts:8-49 | On the core's dev server (port 5173) API calls are relative but files go to `http://localhost:3000` |
| FrontendConfig.FileBaseFollowsNonEmptyApiBase | frontend/config.ts:8-49 | On every other page files are served from the API base itself |
| FrontendConfig.StripLeadingSlashes | frontend/config.ts:56 | The result is a suffix without a leading '/', and only '/' characters were removed |
| FrontendConfig.FileUrl | frontend/config.ts:54-58 | `fileUrl("")` is the file base; otherwise the URL starts with the file base and '/' |
| FrontendConfig.StripSlashesPrefix | frontend/config.ts:56 | Any number of leading slashes is removed completely |
| FrontendConfig.LeadingSlashesIgnored | frontend/config.ts:55-57 | `fileUrl("///a") == fileUrl("a")` for any number of slashes |
| FrontendConfig.CollapseDoubled | frontend/config.ts:56 | `uploads` + one or more '/' + `uploads/` collapses to one `uploads/` |
| FrontendConfig.DoubledUploadsCollapse | frontend/config.ts:54-58 | A doubled `uploads/` prefix reaches the file base only once |
| FrontendConfig.UploadsCollapseOnce | frontend/config.ts:56 | The collapse happens once: a tripled prefix keeps two |
| FrontendConfig.OtherPathsKept | frontend/config.ts:54-58 | Every relative path without a leading '/' and without a doubled `uploads/` prefix is appended to the file base unchanged |
| FrontendConfig.SingleUploadsPrefixKept | frontend/config.ts:54-58 | A stored path with a single `uploads/` prefix, such as `uploads/a.pdf`, is appended to the file base unchanged |
| ApiAdapter.PluginBackendBase | dist/sandbox/frontend/api-adapter.js:38-44 | The configured backend URL when set; else `http://localhost:` with the configured port, or 4001 when none is set |
| ApiAdapter.StandaloneUsesConfiguredPort | dist/sandbox/frontend/api-adapter.js:43-44 | A standalone page with a configured port and no URL calls `http://localhost:<port>` plus the normalised path |
| ApiAdapter.GetBaseUrl | dist/sandbox/frontend/api-adapter.js:34-52 | Standalone: the plugin backend; integrated: the page's origin; no window: `http://localhost:3000` |
| ApiAdapter.NormalizePath | dist/sandbox/frontend/api-adapter.js:67 | The result starts with '/', ends with the path, and is the path itself when it already starts with '/' |
| ApiAdapter.Api | dist/sandbox/frontend/api-adapter.js:61-90 | Absolute URLs pass through; standalone goes to the plugin backend; integrated uses the core's function, else a relative path on local hosts, else `VITE_API_URL` or the origin |
| ApiAdapter.SlashInsensitive | dist/sandbox/frontend/api-adapter.js:63-67 | For a fixed environment `api("x") == api("/x")` |
| ApiAdapter.PathIsKept | dist/sandbox/frontend/api-adapter.js:61-90 | Unless the core's function takes over, the URL ends with the normalised path |
| ApiAdapter.StandaloneDefaultsToPort4001 | dist/sandbox/frontend/api-adapter.js:43-44 | A standalone page with nothing configured calls `http://localhost:4001` |
| ApiAdapter.CoreDevServerIsRelative | dist/sandbox/frontend/api-adapter.js:79-82 | On a local integrated page without the core's function the URL is the bare normalised path |
| AuthAdapter.BearerHeaders | src/sandbox/frontend/auth-adapter.ts:181-187 | Exactly `Authorization: Bearer <token or mock-dev-token>` and `Content-Type: application/json` |
| AuthAdapter.FallbackHeaders | src/sandbox/frontend/auth-adapter.ts:198-215 | `Content-Type` always; `Authorization` iff the parameter or the stored `auth_token` is non-empty, parameter first; `x-workspace-id` iff `active_ws` is stored non-empty, and equal to it |
| AuthAdapter.AuthHeaders | src/sandbox/frontend/auth-adapter.ts:177-225 | Standalone gives the mock bearer headers; the core's function's headers are returned unchanged, and its exception gives the bearer headers; otherwise the fallback |
| AuthAdapter.FromCore | src/sandbox/frontend/auth-adapter.ts:120-141 | A user iff the core's user is truthy, with `workspaceId` defaulting to 1 and the core's token; `loginWithToken` only if the core has it |
| AuthAdapter.FromStorage | src/sandbox/frontend/auth-adapter.ts:147-168 | A user iff a non-empty `auth_token` is stored, carrying that token and workspace 1; logout removes the stored token |
| AuthAdapter.UseAuth | src/sandbox/frontend/auth-adapter.ts:98-169 | Standalone gives the mock state; a returning core hook is used; a throwing or absent core hook falls back to storage |
| AuthAdapter.StandaloneHeadersMatchMockToken | src/sandbox/frontend/auth-adapter.ts:102-114 | In standalone mode the header carries the token `useAuth` reports |
| AuthAdapter.FallbackHeadersAgreeWithUser | src/sandbox/frontend/auth-adapter.ts:149-207 | Without the core, an Authorization header exists iff `useAuth` reports a user, and it carries that user's token |
| AuthAdapter.ThrowingCoreHeadersStillAuthenticate | src/sandbox/frontend/auth-adapter.ts:216-223 | A throwing core header function gives the bearer headers: the caller's token or the mock token, and the JSON content type |
| Crypto.DeriveKey | backend/utils/crypto.ts:8-10 | The key has 32 characters: the secret's first 32, or the secret padded with '0' |
| Crypto.DefaultKeyIsPaddedOnce | backend/utils/crypto.ts:8-10 | The 31-character default gains one '0'; an empty secret counts as unset |
| Crypto.KeyIgnoresSecretTail | backend/utils/crypto.ts:8-10 | Secrets agreeing on the first 32 characters give the same key |
| Crypto.Frame | backend/utils/crypto.ts:21 | The frame is as long as IV, tag and ciphertext together |
| Crypto.Unframe | backend/utils/crypto.ts:29-32 | The three clamped slices re-concatenate to the buffer; a buffer of at least 28 bytes gives a 12-byte IV and a 16-byte tag |
| Crypto.UnframeFrame | backend/utils/crypto.ts:21-32 | Splitting at 12 and 28 recovers exactly the IV, tag and ciphertext of any frame |
| Crypto.EncryptJSON | backend/utils/crypto.ts:15-22 | Succeeds iff the object stringifies, and then yields the base64 of a frame starting with the IV |
| Crypto.DecryptJSON | backend/utils/crypto.ts:27-40 | Never throws: a failed decryption or parse gives `null`, otherwise the parsed plaintext |
| Crypto.DecryptEncrypt | backend/utils/crypto.ts:15-40 | Decrypting an encryption under the same secret gives `JSON.parse(JSON.stringify(obj))` |
| Crypto.DecryptEncryptIdentity | backend/utils/crypto.ts:15-40 | For a JSON-stable object the round trip is the identity |
| Crypto.Substr | backend/utils/crypto.ts:46 | `substr(start, len)` is "" past the end; otherwise it starts the text at `start` and has `len` characters, or as many as remain |
| Crypto.GenerateUniqueId | backend/utils/crypto.ts:45-47 | The id starts with `id-` and has at most 16 characters after it |
| Crypto.UniqueIdUsesFraction | backend/utils/crypto.ts:46 | The id carries up to 16 characters of the base-36 fraction after "0." |
| Crypto.BeforeFirstT | backend/utils/crypto.ts:53 | `split('T')[0]` is the longest 'T'-free prefix |
| Crypto.FormatDate | backend/utils/crypto.ts:52-54 | The date string is a 'T'-free prefix of the ISO timestamp |
| Crypto.BeforeFirstTOf | backend/utils/crypto.ts:53 | Any 'T'-free prefix followed by a 'T' is the part kept |
| Crypto.FormatDateOfIso | backend/utils/crypto.ts:52-54 | On `YYYY-MM-DDT...` the result is the date part |
| DevServer.Defaulted | dist/sandbox/backend/dev-server.js:21-27 | A destructuring default applies only to `undefined` |
| DevServer.ResolveConfig | dist/sandbox/backend/dev-server.js:20-27 | Fails iff the config is `null`; each option is the given one or its default |
| DevServer.NoConfigGivesDefaults | dist/sandbox/backend/dev-server.js:21-27 | No config gives port 4001, the 5182 frontend, the 3000 core API and mock user 1 with role `admin` |
| DevServer.CorsOrigin | dist/sandbox/backend/dev-server.js:31-48 | Allowed iff there is no origin, it is `http://localhost:<digits>` exactly, or it equals `frontendUrl`; rejected with "Not allowed by CORS" otherwise |
| DevServer.EveryLocalhostPortAllowed | dist/sandbox/backend/dev-server.js:38-40 | Every `http://localhost:<port>` is allowed whatever the configuration |
| DevServer.NonPortOriginsNeedFrontendMatch | dist/sandbox/backend/dev-server.js:38-44 | A trailing path, `https`, or a missing port is not a localhost origin |
| DevServer.MockAuth | dist/sandbox/backend/dev-server.js:60-64 | Every request becomes the mock user with `Bearer mock-dev-token`; every other header and the request itself are unchanged |
| DevServer.MockAuthIdempotent | dist/sandbox/backend/dev-server.js:60-64 | Passing the middleware twice is the same as once |
| DevServer.Health | dist/sandbox/backend/dev-server.js:66-77 | `/health` reports `ok` and `standalone` and echoes port, frontend URL and core API URL |
| DevServer.ErrorHandler | dist/sandbox/backend/dev-server.js:79-86 | 500 with "Internal Server Error" and the message; `stack` iff NODE_ENV is `development` |
| DevServer.HealthEchoesDefaults | dist/sandbox/backend/dev-server.js:21-77 | A server started without configuration reports port 4001, the 5182 frontend and the 3000 core API |
| DevServer.HealthEchoesConfiguredPort | dist/sandbox/backend/dev-server.js:66-77 | A configured port is reported as given |
| DevServer.DevelopmentOnlyAddsStack | dist/sandbox/backend/dev-server.js:79-86 | The development answer minus `stack` is the answer in every other environment |
| DevApp.GetActionEndpoint | src/sandbox/frontend/DevApp.tsx:650-675 | An `actionEndpoints` entry wins; otherwise the endpoint always has a method, `action.endpoint` applies with method defaulting to POST, and later branches use POST |
| DevApp.ConventionIsTheFallback | src/sandbox/frontend/DevApp.tsx:670-674 | Without configuration the action is posted to `/api/plugins/<plugin>/<action>` |
| DevApp.ManifestPathPrecedence | src/sandbox/frontend/DevApp.tsx:657-668 | `action.path` is used only when no override and no `action.endpoint` exist |
| DevApp.CardsAt | src/sandbox/frontend/DevApp.tsx:187-190 | The bucket holds exactly the truthy cards of that location |
| DevApp.CardsAtAppend | src/sandbox/frontend/DevApp.tsx:187-190 | Bucketing distributes over concatenation, so card order is preserved |
| DevApp.CardsByLocation | src/sandbox/frontend/DevApp.tsx:186-191 | Each bucket filters `cards || []` by its location |
| DevApp.CardInItsBucketOnly | src/sandbox/frontend/DevApp.tsx:186-191 | A card is in a bucket iff its location names that bucket, so other locations appear in none |
| DevApp.ExtractComponents | src/sandbox/frontend/DevApp.tsx:195-200 | As written: the reduce throws iff some card is `null`/`undefined`; otherwise its keys are exactly the ids of cards with a component, each holding the component of the last such card |
| DevApp.NullCardBreaksExtraction | src/sandbox/frontend/DevApp.tsx:186-200 | As written: a `null` card is skipped by the buckets but makes the extraction throw a TypeError |
| DevApp.ExtractComponentsGuarded | src/sandbox/frontend/DevApp.tsx:195-200 | Corrected: never fails; keys are exactly the ids of truthy cards with a component, each holding the component of the last such card |
| DevApp.GuardedFromKeys | src/sandbox/frontend/DevApp.tsx:195-200 | Each step of the reduce adds exactly the contributing cards' ids to the accumulator |
| DevApp.GuardedFromLast | src/sandbox/frontend/DevApp.tsx:195-200 | The last contributing card with an id decides the value stored under it, whatever the accumulator held |
| DevApp.GuardedAgreesWhenNoNullCards | src/sandbox/frontend/DevApp.tsx:195-200 | Where the written reduce succeeds, the guarded one gives the same map |
| DevApp.CardComponents | src/sandbox/frontend/DevApp.tsx:204-207 | Keys are the union; a provided component overrides the extracted one on the same key |
| DevApp.CardComponentsAsWritten | src/sandbox/frontend/DevApp.tsx:195-207 | As written: fails iff a card is nullish; otherwise keys are the card ids plus the provided names, provided components win, and other ids hold their last card's component |
| DevApp.CardComponentMap | src/sandbox/frontend/DevApp.tsx:195-207 | Corrected: keys are the contributing card ids plus the provided names; provided components win; other ids hold their last card's component |
| DevApp.CardComponentMapRefinesAsWritten | src/sandbox/frontend/DevApp.tsx:195-207 | The corrected map equals the written one wherever the written one succeeds |
| DevApp.ProvidingTheExtractedIsNeutral | src/sandbox/frontend/DevApp.tsx:204-207 | Providing the already extracted components changes nothing |
| DevApp.CurrentMockup | src/sandbox/frontend/DevApp.tsx:621-630 | Custom: `null` without text, else the parsed JSON (`null` when invalid) labelled "Custom JSON"; otherwise the selected mockup, `undefined` for an unknown key |
| DevApp.RunGuard | src/sandbox/frontend/DevApp.tsx:806-837 | The run proceeds iff a mockup is selected, custom JSON has no error, and the endpoint has a path; a missing mockup gives the custom or the regular message; a custom JSON error gives "El JSON tiene errores. Corregí los errores antes de ejecutar."; a missing path gives `success: false`, "Endpoint no disponible" and `data` with the explanatory message and the action's id |
| DevApp.WrapResponse | src/sandbox/frontend/DevApp.tsx:849-871 | OK: success with the answer plus `_timestamp` and `_action`; not OK: `error` is `error`, else `message`, else "Error desconocido"; a fetch failure reports the exception |
| DevApp.RunAction | src/sandbox/frontend/DevApp.tsx:804-871 | A request is sent iff the guard passes, to backend URL + path with the endpoint's method and the mockup's `data`; otherwise the refusal is recorded, among them the JSON-error message and "Endpoint no disponible" with the action's id |
| DevApp.OkAnswerKeepsFields | src/sandbox/frontend/DevApp.tsx:849-858 | Every member of an OK answer reaches `data`, except the two the shell adds |
| DevApp.NullErrorBodyIsTypeError | src/sandbox/frontend/DevApp.tsx:859-871 | A `null` error body is reported through the catch as reading `error` of null |
| DevApp.ConventionalRunIsSent | src/sandbox/frontend/DevApp.tsx:650-675 | With a mockup and no configuration the run POSTs the mockup data to the conventional route |
| DevApp.EmptyCustomJsonIsRefused | src/sandbox/frontend/DevApp.tsx:621-629 | The custom entry with no text is refused with the custom-JSON message |
| DevApp.TagAll | src/sandbox/frontend/DevApp.tsx:1115-1116 | Each element is spread with `id` = prefix + index and `type` = kind |
| DevApp.AllTemplates | src/sandbox/frontend/DevApp.tsx:1114-1117 | All schemas as `schema-i`, followed by all templates as `template-i` |
| DevApp.TemplateIdsDistinct | src/sandbox/frontend/DevApp.tsx:1114-1118 | The ids are pairwise distinct, so `find` by id selects at most one entry |
| DevApp.AllTemplatesIds | src/sandbox/frontend/DevApp.tsx:1114-1117 | Entry i carries `schema-i`, or `template-(i - #schemas)` |
| PrismaService.GetPrismaClient | backend/services/prisma.service.ts:16-36 | Cached: the same client, state unchanged; no URL: the throwing stand-in, nothing cached; else one new client with logs error and warn is cached; validity is preserved |
| PrismaService.RunCalls | backend/services/prisma.service.ts:10-36 | One handle per call; reachable states stay valid |
| PrismaService.AtMostOneClient | backend/services/prisma.service.ts:10-36 | Across any call sequence at most one PrismaClient is constructed |
| PrismaService.CachedClientIsStable | backend/services/prisma.service.ts:17-35 | Once cached, every later call returns that client whatever the environment |
| PrismaService.OneClientPerProcess | backend/services/prisma.service.ts:10-36 | Any two real clients handed out in one run are the same |
| PrismaService.SharedPrismaGet | backend/services/prisma.service.ts:42-47 | Every property read goes through `getPrismaClient`; it throws the "no disponible" error iff nothing is cached and DATABASE_URL is unset |
| PrismaService.LateDatabaseUrlStillWorks | backend/services/prisma.service.ts:19-33 | A read without DATABASE_URL caches nothing, so setting it later still brings the client up |
| PrismaAdapter.FormaraBackendSubsumed | dist/sandbox/backend/prisma-adapter.js:19-26 | Standalone iff cwd does not end with `/backend`; the `/formara/backend` test adds nothing |
| PrismaAdapter.IntegratedInstance | dist/sandbox/backend/prisma-adapter.js:45-61 | The shared client (named export before default) iff the module loads and exports a truthy one; else a local client without options |
| PrismaAdapter.GetPrismaClient | dist/sandbox/backend/prisma-adapter.js:30-67 | Never fails and always caches its answer; a cached instance is returned as is; otherwise standalone gives a local client, integrated the shared one or the fallback |
| PrismaAdapter.MemoisedIgnoresEnvironment | dist/sandbox/backend/prisma-adapter.js:31-33 | After the first call, the cwd, NODE_ENV and the shared module no longer matter |
| PrismaAdapter.IntegratedFailureFallsBack | dist/sandbox/backend/prisma-adapter.js:50-61 | A failing load or missing exports give a local client |
| PrismaAdapter.NamedSharedExportWins | dist/sandbox/backend/prisma-adapter.js:49 | A truthy `sharedPrisma` export is used over `default` |
| ViteConfig.CoreAliases | dist/utils/vite-config.js:17-24 | Exactly `@core`, `@core/frontend` and `@core/backend`; the latter two are the first joined with `frontend` and `backend` |
| ViteConfig.GetPluginViteConfig | dist/utils/vite-config.js:13-27 | The base configuration holds only `resolve.alias` with the core aliases |
| ViteConfig.MergeConfig | dist/utils/vite-config.js:33-44 | Top-level keys are the union plus `resolve`; custom keys other than `resolve` win over base keys |
| ViteConfig.MergeResolve | dist/utils/vite-config.js:36-38 | Inside `resolve`, custom keys win except `alias` |
| ViteConfig.MergeAlias | dist/utils/vite-config.js:39-42 | `alias` is the union of both tables; custom entries win and base-only entries stay |
| ViteConfig.CreatePluginViteConfig | dist/utils/vite-config.js:31-45 | Fails iff the custom configuration is `null`; otherwise the merge over the base, with `{}` for a missing one |
| ViteConfig.NoCustomConfigIsBase | dist/utils/vite-config.js:31-45 | Without a custom configuration the result is the base configuration |
| ViteConfig.CoreAliasesSurvive | dist/utils/vite-config.js:39-42 | A core alias the plugin does not redefine survives the merge |

## Left out

- Express, `app.listen`, `cors`/`express.json` wiring, `require` of plugin code, `fs.existsSync` and all logging. File existence and module exports are inputs (`SandboxServer.PluginDir`). Mounting the plugin router is not modelled.
- The sandbox server's own error middleware (dev/sandbox-server.ts:226-229) and its port selection: they are HTTP plumbing outside the endpoints.
- Response bodies are the object handed to `res.json`. `JSON.stringify` dropping `undefined` members (for example `stack` outside development) is not modelled.
- AES-256-GCM, UTF-8, base64, `JSON.parse`/`JSON.stringify`, `Math.random().toString(36)`, `Date.toISOString` and `crypto.randomBytes` are parameters. The cipher and codec carry their round-trip guarantees as predicates (`Crypto.CipherCorrect`, `Crypto.CodecCorrect`).
- Crypto.DeriveKey: the key is measured in characters. `Buffer.from(ENC_KEY)` can be longer than 32 bytes for non-ASCII secrets, and that is not modelled.
- `path.resolve`/`path.join` in `getPluginViteConfig`: the resolved SDK directory is an input, and joining is concatenation with '/'.
- ViteConfig.MergeConfig: spreading strings or arrays (their index keys) is not modelled; a non-object spreads as `{}`. The same holds for `Js.Spread` everywhere.
- MockupLoader.LabelShape: upper-casing is modelled for ASCII letters only; `toUpperCase` on other scripts (and characters whose upper case is longer) is not modelled.
- MockupLoader.ProcessMockups: the record is a map, so the property order of the returned object, and the special `__proto__` key, are not modelled.
- AuthAdapter.AuthHeaders: `localStorage` access that throws (a blocked storage) is not modelled; only the core header function's exception reaches the catch branch.
- React rendering, JSX, `useState`/`useEffect`, the theme hook, backend health polling and auto-selection effects of the DevApp. This includes the effect that publishes `__PLUGIN_BACKEND_URL__`/`__PLUGIN_BACKEND_PORT__` (src/sandbox/frontend/DevApp.tsx:160-176), which needs URL parsing; the adapters take those globals as inputs.
- DevApp.ExtractComponents: takes the card list; a `null` `cards` prop, which also makes `cards.reduce` throw, is not modelled there (only `CardsByLocation` takes the optional list).
- The `beforeExit` disconnect of `sharedPrisma` (backend/services/prisma.service.ts:50-52), and JavaScript `Proxy` semantics beyond the `get` trap.
- `loadMockups` (dist/sandbox/frontend/mockup-loader.js:58-62) depends on the bundler's `import.meta.glob`. Its result is the `standardGlob` input of `MockupLoader.LoadMockupsFromPattern`.
- SandboxServer.ActionDef: actions and hooks are modelled as arrays of well-formed definitions. A non-array export, or a `null` element, makes `.find` throw a TypeError, which the catch answers with 500 (dev/sandbox-server.ts:114, 143-151). This is not modelled.
- SandboxServer.ActionFailureIs500: a thrown value is modelled as an object with `message` and `stack`. A thrown non-object (`throw null`) makes `error.message` itself throw inside the catch (dev/sandbox-server.ts:148), so no answer is sent. This is not modelled; the same holds for `SandboxServer.HookFailureIs500`.
- PrismaAdapter.IntegratedFailureFallsBack: a shared module whose evaluation throws a non-object makes `error.message` throw inside the catch (dist/sandbox/backend/prisma-adapter.js:57). That exception would escape, and it is not modelled.
- ViteConfig.MergeAlias: alias tables are maps, so the key order that Vite's first-match alias resolution reads is not modelled.
- Numbers are integers; NaN, fractions and negative ports do not arise in the modelled paths.
- The sandbox-shell pages, the bin and build scripts, the type-only contract files and the constant mocks of the other services: they hold no behaviour of the modelled core.

## Findings

| source | as written | input that shows it | evidently intended | confidence | as-written member | corrected member |
|---|---|---|---|---|---|---|
| src/ui/components/masked-input.tsx:37-44 | The loop keeps copying literal mask characters while unused digits remain, so a value with more digits than slots ends in trailing literals; re-masking then drops them | mask `XX-`, value `123`: `applyMask` gives `12-`, and `applyMask("12-")` gives `12`, so the blur handler rewrites a freshly typed value | Formatting is idempotent, as the blur handler's "ensure it is formatted" relies on: surplus digits are dropped before filling | medium, not executed | MaskedInput.SurplusDigitsBreakIdempotence | MaskedInput.CappedIsIdempotent |
| src/sandbox/frontend/DevApp.tsx:195-200 | The component extraction reads `card.configComponent` without the `card &&` guard that the location filter at lines 187-190 applies | `cards = [null]`: the buckets are empty, but the reduce throws "Cannot read properties of null (reading 'configComponent')" | Nullish cards are skipped in the extraction as they are in the buckets | high, not executed | DevApp.NullCardBreaksExtraction | DevApp.CardComponentMapRefinesAsWritten |
