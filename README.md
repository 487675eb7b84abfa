# n-odata-server request dispatch, modelled in Dafny

This project models the request-dispatch layer of n-odata-server, an OData
(versions 2 and 4) server component for LoopBack applications. It covers
three parts:

- **Initialisation.** The exported function of `lib/odata.ts` keeps a
  reference to the caller's options object and fills in defaults in place.
  A falsy `maxpagesize` becomes the server's maximum page size. The OData
  prefix is `path.split('/')[1]`. A falsy `odataversion` becomes `"4"`. The
  function then installs the V2 or V4 handler objects and mounts that
  version's method switch. Any other version is only logged.
- **The method switch.** Each version has a switch from the HTTP method to
  a `_handle*` function, or to 404. V2 routes GET, POST and DELETE. V4
  routes GET, POST, PUT, PATCH, DELETE, and sends MERGE to the PATCH
  handler. Each `_handle*` function forwards to one operation of one
  handler object. PUT (full replacement) and PATCH (partial update) call
  different operations of the put handler. An error thrown inside the
  switch is caught and answered with 500.
- **The V2 GET handler** (`lib/v2/get/odata_get.ts`). It stamps the V2
  version header and then answers by request type:
  - service, collection and entity requests answer with the backend
    result's `getRequestResult()` on success, and with 500 on failure. Only
    a failed collection request puts the error text in the body;
  - a metadata request sends the generated XML with Content-Type
    `application/xml`;
  - any other request type gets 404.

Modules:

| file | module | contents |
|---|---|---|
| values.dfy | `Values` | `Option`, `Outcome`, `JsError`, JavaScript truthiness of the option fields |
| split.dfy | `StringSplit` | `String.prototype.split` / `Array.prototype.join` with a one-character separator, and their round trips |
| router.dfy | `VersionRouter` | the V2 and V4 method switches, the handler-to-operation mapping, a version-independent reference table |
| config.dfy | `ServerConfig` | the options object (a class), the defaulting rules, the prefix, version selection, `Initialize` |
| http.dfy | `Http` | the response object: version header, Content-Type, status, body, number of sends |
| v2_get.dfy | `ODataGetV2` | `GetResponse` (the specification) and `HandleGet` (the imperative handler proved against it) |
| server.dfy | `ODataServer`, `Scenarios` | the server object (`Init`, the version set-up methods, `HandleRequest`), `Serve` and its routing lemmas, and two client scenarios |

Some things are inputs rather than code:

- The request type is an input. It comes from `commons.getRequestType`.
- The settled outcome of the backend call is an input. It is
  `Success(result)` or `Failure(error)`.
- The metadata document, or the error its generator throws, is an input.
- The maximum page size is a parameter of `Init`. The constants module that
  defines it is not part of this model.
- The version-header constants are symbols, not strings.

Two behaviours of the code are worth stating plainly:

- The V2 switch has its MERGE, PUT and PATCH cases commented out
  (lib/odata.ts:78-92), so under V2 those methods get 404. Only the V4
  switch sends MERGE to the PATCH handler.
- A failed collection request in the V2 GET handler sends `error.toString()`
  as the body of its 500 (lib/v2/get/odata_get.ts:61), so the error's text
  reaches the client.

## Model

| member | source | states |
|---|---|---|
| `StringSplit.Split` | lib/odata.ts:36 | splitting on a separator yields one more part than there are separators, and no part contains the separator |
| `StringSplit.JoinSplit` | lib/odata.ts:36 | joining the parts with the separator gives back the split string |
| `StringSplit.SplitJoin` | lib/odata.ts:36 | splitting the join of separator-free parts gives back the parts, so split is a bijection onto non-empty lists of separator-free parts |
| `StringSplit.SplitWithoutSeparator` | lib/odata.ts:36 | a string without the separator splits into itself alone |
| `StringSplit.SplitAfterPiece` | lib/odata.ts:36 | a separator-free piece followed by the separator splits off as the first part, and the rest splits independently |
| `ServerConfig.DefaultMaxPageSize` | lib/odata.ts:31-33 | a truthy page size is kept; a falsy one (absent or 0) becomes the constant, whatever its value; the result is truthy whenever the constant is |
| `ServerConfig.OdataPrefix` | lib/odata.ts:36-37 | the prefix is defined exactly when the path contains '/'; it is one of the path's separator-free segments |
| `ServerConfig.PrefixIsSecondSegment` | lib/odata.ts:36-37 | the prefix is the segment after the first '/': "odata" for "/odata" and for "/odata/…"; for a path without a leading slash it is the second segment |
| `ServerConfig.DefaultVersion` | lib/odata.ts:39-41 | the result is always truthy; a supplied truthy version is kept; otherwise it becomes "4" |
| `ServerConfig.SelectVersion` | lib/odata.ts:43-49 | V4 exactly for "4", V2 exactly for "2", nothing for any other value |
| `ServerConfig.Initialize` | lib/odata.ts:27-49 | the path is never changed; the stored page size is `DefaultMaxPageSize` of the given one (the constant when falsy); reading a missing path fails, after the page size was already defaulted; otherwise the stored version is `DefaultVersion` of the given one ("4" when falsy), the selected handler set is `SelectVersion` of the stored version, the prefix is derived from the path, and V4 is chosen exactly when the version was absent, empty or "4", V2 exactly when it was "2" |
| `ServerConfig.InitializeIdempotent` | lib/odata.ts:27-49 | initialising an already initialised configuration changes nothing and selects the same version |
| `VersionRouter.RouteV2` | lib/odata.ts:71-98 | a handler is chosen exactly for GET, POST and DELETE; PUT and PATCH handlers are never chosen |
| `VersionRouter.RouteV4` | lib/odata.ts:127-154 | a handler is chosen exactly for GET, POST, PUT, PATCH, MERGE and DELETE; the PATCH handler exactly for PATCH and MERGE; the PUT handler exactly for PUT |
| `VersionRouter.RouteMatchesTable` | lib/odata.ts:71-154 | both switches agree with one version-independent table: a routed method goes to the handler its name means, and every other method, lower-case spellings included, yields 404 |
| `VersionRouter.V2RoutesAsV4` | lib/odata.ts:71-154 | what V2 routes, V4 routes to the same handler; what V4 rejects, V2 rejects |
| `VersionRouter.Delegate` | lib/odata.ts:171-224 | GET uses exactly the get-handler object and its get operation, POST exactly the post-handler object and its post operation, DELETE exactly the delete-handler object and its delete operation; PUT and PATCH are exactly the handlers that use the put-handler object, only PUT calls its put operation and only PATCH its patch operation |
| `VersionRouter.DelegateInjective` | lib/odata.ts:197-212 | distinct handlers forward to distinct (object, operation) pairs, so replacement and partial update are never conflated |
| `VersionRouter.RoutedSlotIsInstalled` | lib/odata.ts:61-161 | every handler a version's switch routes to uses a handler object that version installs; V2 never uses the put handler it does not install |
| `ODataGetV2.GetResponse` | lib/v2/get/odata_get.ts:34-87 | the V2 version header is always set; exactly one response is sent unless metadata generation throws, in which case nothing is sent; 404 exactly for an unrecognised request type; 500 exactly for a failed backend call; an error body exactly for a failed collection request; the result's `getRequestResult()` as body on success; the XML content type exactly for a generated metadata document and no content type otherwise; the bare 404 and the bare 500s of failed service and entity requests carry only the status's reason phrase; a throw leaves the body unset |
| `ODataGetV2.HandleGet` | lib/v2/get/odata_get.ts:34-77 | the response object's final state and the error thrown are those `GetResponse` gives |
| `ODataGetV2.GetMetadataDocument` | lib/v2/get/odata_get.ts:83-87 | on success it sets Content-Type to application/xml and sends the document; on a throwing generator the response is untouched and the error propagates |
| `ODataServer.Install` | lib/odata.ts:61-120 | after installation every field the version uses holds that version's handler object; V2 leaves the put field as it was |
| `ODataServer.Serve` | lib/odata.ts:69-160 | an unrouted method gets exactly a 404; a routed one invokes something exactly when the field its handler forwards to is filled, and then it is that operation on that field's object; an empty field gets 500; the V2 GET handler's response is the one `GetResponse` gives, with the catch-all's 500 when it throws; an error thrown by any other handler is answered with 500 |
| `ODataServer.V2GetAnswersOnce` | lib/odata.ts:70-103 | a V2 GET reaching the V2 get handler gets exactly one response with the V2 header, 404 exactly for unrecognised request types, and 500 when metadata generation throws |
| `ODataServer.MergeServedAsPatch` | lib/odata.ts:141-148 | under V4, a MERGE request is served exactly as a PATCH request, through the patch operation |
| `ODataServer.V2NeverUpdates` | lib/odata.ts:78-92 | under V2 no request reaches a put or patch operation |
| `ODataServer.InstalledHandlersAreReached` | lib/odata.ts:116-160 | with its handlers installed, every routed request reaches its version's handler object, and a handler that throws gets one 500 response, never a 404 |
| `ODataServer.Server.Init` | lib/odata.ts:27-50 | on a server with no switch mounted yet, the kept configuration is the caller's own options object (or a new one if there were none), updated as `Initialize` says; the handler fields and the mounted switch change exactly when a version is selected |
| `ODataServer.Server.HandleODataVersion2` | lib/odata.ts:61-68 | installs the V2 get, post and delete handlers and mounts the V2 switch |
| `ODataServer.Server.HandleODataVersion4` | lib/odata.ts:116-124 | installs the V4 get, delete, post and put handlers and mounts the V4 switch |
| `ODataServer.Server.HandleRequest` | lib/odata.ts:69-160 | the response and the invoked operation are those `Serve` gives for the mounted version and the installed handlers; when the mounted version's handlers are installed, every routed request reaches a handler object |

## Left out

- Middleware registration with LoopBack/Express (`loopbackApplication.use`) is not modelled. Mounting is a field that records the version whose switch answers requests.
- ODataServer.Server.Init: requires that no switch is mounted yet. A second initialisation in the source registers one more middleware at its path, and the first one registered keeps answering, so stacked switches are not modelled.
- The `this` binding is simplified. The source stores handler objects on whatever `this` the function is called with. Here they are fields of one server object.
- `common.setConfig` and `oDataGet.setConfig` are left out. They hand the configuration to code that is not part of this model.
- Logging (`console.log`, `console.error`) is left out.
- Promise asynchrony is left out. Each backend call is given as its settled outcome. The header is written before the call, and the answer after it settles.
- A handler's synchronous exception after it has already sent a response is not modelled. The router's 500 would then fail in Express.
- `commons.getRequestType`, `_getServiceDocument`, `_getCollectionData`, `_getEntityData` and `getRequestResult` are not part of this model. Their results are inputs.
- `getMetaData` (the XML generator) is not part of this model. Its result is an input.
- Query-option parsing is not part of this model. No code in the modelled files implements it.
- The V4 GET handler and the POST, PUT and DELETE handlers of both versions are not part of this model. `Serve` records which of their operations is invoked, and whether it throws, but not what they write to the response.
- `ODataServer.Serve`: for handler objects other than the V2 GET handler, the response it states holds only what the router writes. This is weaker than the real response, because those handlers' own writes are not modelled.
- ODataGetV2.GetResponse: rejection values are assumed to be error objects with a `toString()`. A collection call rejected with `undefined` or `null` would make `error.toString()` throw inside the rejection handler, and no response would be sent. That case is not modelled.
- Option values that are neither numbers nor strings are not modelled. Examples are a numeric `odataversion` or a non-string `path`. Truthiness is modelled only for `undefined`, `0` and `""`.
- The values of `ODATA_MAXPAGESIZE` and `ODATA_VERSION_2` are not modelled. The constants module is not part of this model. The first is a parameter and the second a symbol.
- The name of the version header is not modelled. `setODataVersion` belongs to a base class that is not part of this model.
- Express's own `Content-Type` choice for `send` is not modelled.
