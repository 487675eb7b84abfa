/** The method switches that the server mounts at its path, one per
    protocol version (lib/odata.ts, `_handleODataVersion2` and
    `_handleODataVersion4`), and the `_handle*` functions they call, each of
    which forwards to one operation of one handler object. The switch
    compares the request method with `===`, so only the exact upper-case
    method names are routed. */
module VersionRouter {

  import opened Values

  /** The protocol versions for which a handler set exists. */
  datatype ODataVersion = V2 | V4

  /** The module-level `_handle*` functions a switch can call. */
  datatype Handler = HandleGet | HandlePost | HandlePut | HandlePatch | HandleDelete

  /** What the switch does with a request: call a handler, or answer 404. */
  datatype Routing = ToHandler(handler: Handler) | NotFound

  /** The fields of the server object that hold the handler objects. */
  datatype Slot = ODataGet | ODataPost | ODataPut | ODataDelete

  /** The handler-object operations the `_handle*` functions invoke. */
  datatype Operation = GetOp | PostOp | PutOp | PatchOp | DeleteOp

  /** The switch mounted for OData V2. PUT, PATCH and MERGE are disabled
      cases in the source, so they reach the default branch. */
  function RouteV2(verb: string): (r: Routing)
    ensures r.ToHandler? <==> verb in {"GET", "POST", "DELETE"}
    ensures r != ToHandler(HandlePut) && r != ToHandler(HandlePatch)
  {
    match verb
    case "GET" => ToHandler(HandleGet)
    case "POST" => ToHandler(HandlePost)
    case "DELETE" => ToHandler(HandleDelete)
    case _ => NotFound
  }

  /** The switch mounted for OData V4; MERGE, the V2 name for a partial
      update, goes to the PATCH handler. */
  function RouteV4(verb: string): (r: Routing)
    ensures r.ToHandler? <==> verb in {"GET", "POST", "PUT", "PATCH", "MERGE", "DELETE"}
    ensures r == ToHandler(HandlePatch) <==> verb in {"PATCH", "MERGE"}
    ensures r == ToHandler(HandlePut) <==> verb == "PUT"
  {
    match verb
    case "GET" => ToHandler(HandleGet)
    case "POST" => ToHandler(HandlePost)
    case "PUT" => ToHandler(HandlePut)
    case "PATCH" => ToHandler(HandlePatch)
    case "MERGE" => ToHandler(HandlePatch)
    case "DELETE" => ToHandler(HandleDelete)
    case _ => NotFound
  }

  function Route(version: ODataVersion, verb: string): Routing {
    match version
    case V2 => RouteV2(verb)
    case V4 => RouteV4(verb)
  }

  /** The methods a version's switch routes to a handler. */
  function RoutedMethods(version: ODataVersion): set<string> {
    match version
    case V2 => {"GET", "POST", "DELETE"}
    case V4 => {"GET", "POST", "PUT", "PATCH", "MERGE", "DELETE"}
  }

  /** The handler a routed verb means, independent of the version:
      PUT replaces an entity, PATCH and MERGE update it partially. */
  function HandlerFor(verb: string): Option<Handler> {
    if verb == "GET" then Some(HandleGet)
    else if verb == "POST" then Some(HandlePost)
    else if verb == "PUT" then Some(HandlePut)
    else if verb == "PATCH" || verb == "MERGE" then Some(HandlePatch)
    else if verb == "DELETE" then Some(HandleDelete)
    else None
  }

  /** The switch of either version agrees with the reference table: a verb
      the version routes goes to the handler its name means, any other
      verb (including every lower-case spelling) yields 404. */
  lemma RouteMatchesTable(version: ODataVersion, verb: string)
    ensures verb in RoutedMethods(version) ==>
              HandlerFor(verb).Some? && Route(version, verb) == ToHandler(HandlerFor(verb).value)
    ensures verb !in RoutedMethods(version) ==> Route(version, verb) == NotFound
  {
  }

  /** Every (version, verb) pair has exactly one outcome, and V2 routes a
      subset of what V4 routes, to the same handlers. */
  lemma V2RoutesAsV4(verb: string)
    ensures Route(V2, verb).ToHandler? ==> Route(V2, verb) == Route(V4, verb)
    ensures Route(V4, verb).NotFound? ==> Route(V2, verb).NotFound?
  {
  }

  /** `_handleGet` .. `_handleDelete`: the field and operation each
      `_handle*` function forwards to. PUT and PATCH share the put-handler
      object but call different operations on it. */
  function Delegate(h: Handler): (d: (Slot, Operation))
    ensures h == HandlePut || h == HandlePatch <==> d.0 == ODataPut
    ensures d.0 == ODataGet <==> h == HandleGet
    ensures d.0 == ODataPost <==> h == HandlePost
    ensures d.0 == ODataDelete <==> h == HandleDelete
    ensures d.1 == GetOp <==> h == HandleGet
    ensures d.1 == PostOp <==> h == HandlePost
    ensures d.1 == PutOp <==> h == HandlePut
    ensures d.1 == PatchOp <==> h == HandlePatch
    ensures d.1 == DeleteOp <==> h == HandleDelete
  {
    match h
    case HandleGet => (ODataGet, GetOp)
    case HandlePost => (ODataPost, PostOp)
    case HandlePut => (ODataPut, PutOp)
    case HandlePatch => (ODataPut, PatchOp)
    case HandleDelete => (ODataDelete, DeleteOp)
  }

  /** Distinct handlers forward to distinct operations: a full replacement
      is never handled as a partial update or the other way round. */
  lemma DelegateInjective(h1: Handler, h2: Handler)
    ensures Delegate(h1) == Delegate(h2) ==> h1 == h2
  {
  }

  /** The handler objects each version's initialisation installs
      (lib/odata.ts:62-64 and 117-120): V2 installs no put handler. */
  function InstalledSlots(version: ODataVersion): set<Slot> {
    match version
    case V2 => {ODataGet, ODataPost, ODataDelete}
    case V4 => {ODataGet, ODataPost, ODataPut, ODataDelete}
  }

  /** A routed request only ever reaches a handler object its version
      installed, so V2 never touches the (absent) put handler. */
  lemma RoutedSlotIsInstalled(version: ODataVersion, verb: string)
    requires Route(version, verb).ToHandler?
    ensures Delegate(Route(version, verb).handler).0 in InstalledSlots(version)
  {
  }
}
