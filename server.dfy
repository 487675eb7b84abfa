/** The server object of lib/odata.ts: the module-level configuration
    reference that initialisation writes, the handler-object fields it
    installs, the method switch it mounts, and the request path through
    that switch with its catch-all that turns a thrown error into a 500. */
module ODataServer {

  import opened Values
  import opened StringSplit
  import opened VersionRouter
  import opened ServerConfig
  import opened Http
  import opened ODataGetV2

  /** The handler-object fields; each holds the protocol version of the
      handler object installed in it, or nothing. */
  datatype HandlerFields = HandlerFields(
    oDataGet: Option<ODataVersion>,
    oDataPost: Option<ODataVersion>,
    oDataPut: Option<ODataVersion>,
    oDataDelete: Option<ODataVersion>)
  {
    function Lookup(slot: Slot): Option<ODataVersion> {
      match slot
      case ODataGet => oDataGet
      case ODataPost => oDataPost
      case ODataPut => oDataPut
      case ODataDelete => oDataDelete
    }
  }

  /** Every field the version installs holds that version's handler object. */
  predicate HandlersFor(v: ODataVersion, fields: HandlerFields) {
    && fields.oDataGet == Some(v)
    && fields.oDataPost == Some(v)
    && fields.oDataDelete == Some(v)
    && (v == V4 ==> fields.oDataPut == Some(V4))
  }

  /** The fields after `_handleODataVersion2` / `_handleODataVersion4`: V2
      leaves the put field as it was. */
  function Install(fields: HandlerFields, v: ODataVersion): (r: HandlerFields)
    ensures HandlersFor(v, r)
    ensures v == V2 ==> r.oDataPut == fields.oDataPut
  {
    match v
    case V2 => fields.(oDataGet := Some(V2), oDataPost := Some(V2), oDataDelete := Some(V2))
    case V4 => HandlerFields(Some(V4), Some(V4), Some(V4), Some(V4))
  }

  /** What initialisation reports. */
  datatype InitOutcome =
    | Mounted(version: ODataVersion)
    | VersionNotSupported(logged: Option<string>)   // logged, nothing mounted
    | PathReadError                                   // reading `options.path.split` threw

  /** The report that corresponds to an initialisation step. */
  function OutcomeOf(step: InitStep): InitOutcome {
    match step
    case PathTypeError(_) => PathReadError
    case Normalized(c, selected) =>
      if selected.Some? then Mounted(selected.value) else VersionNotSupported(c.odataversion)
  }

  /** One operation invoked on one handler object. */
  datatype Invocation = Invocation(slot: Slot, handlerObject: ODataVersion, op: Operation)

  /** The router's answer to a request, and the handler operation it
      invoked. For handler objects other than the V2 GET handler the
      response shows only what the router itself writes. */
  datatype Served = Served(response: ResponseValue, invoked: Option<Invocation>)

  /** A request with method `verb` through the switch mounted for `v`, with
      handler fields `fields`. `t`, `backend` and `metadata` are what the
      V2 GET handler sees; `delegateThrows` is the error another handler
      object throws synchronously, if any. */
  function Serve(v: ODataVersion, fields: HandlerFields, verb: string, t: GetRequestType,
                 backend: Outcome<QueryResult, JsError>, metadata: Outcome<string, JsError>,
                 delegateThrows: Option<JsError>): (r: Served)
    // a method the switch does not route is a 404 and nothing else
    ensures Route(v, verb).NotFound? ==>
              r.response == AfterSendStatus(Fresh, 404) && r.invoked.None?
    // a routed method invokes the operation its handler forwards to, or
    // throws a TypeError because the field is empty, which becomes a 500
    ensures r.invoked.Some? ==>
              && Route(v, verb).ToHandler?
              && (r.invoked.value.slot, r.invoked.value.op) == Delegate(Route(v, verb).handler)
              && fields.Lookup(r.invoked.value.slot) == Some(r.invoked.value.handlerObject)
    ensures Route(v, verb).ToHandler? && r.invoked.None? ==> r.response == AfterSendStatus(Fresh, 500)
    ensures Route(v, verb).ToHandler? ==>
              (r.invoked.Some? <==> fields.Lookup(Delegate(Route(v, verb).handler).0).Some?)
    // the V2 GET handler's own answer, or the catch-all's 500 when it throws
    ensures r.invoked == Some(Invocation(ODataGet, V2, GetOp)) ==>
              r.response == (var g := GetResponse(t, backend, metadata);
                             if g.thrown.Some? then AfterSendStatus(g.response, 500) else g.response)
    // an error thrown by the invoked handler is answered with 500, never 404
    ensures r.invoked.Some? && r.invoked.value != Invocation(ODataGet, V2, GetOp) ==>
              r.response == if delegateThrows.Some? then AfterSendStatus(Fresh, 500) else Fresh
  {
    match Route(v, verb)
    case NotFound => Served(AfterSendStatus(Fresh, 404), None)
    case ToHandler(h) =>
      var (slot, op) := Delegate(h);
      match fields.Lookup(slot)
      case None => Served(AfterSendStatus(Fresh, 500), None)
      case Some(obj) =>
        var invocation := Invocation(slot, obj, op);
        if invocation == Invocation(ODataGet, V2, GetOp) then
          var g := GetResponse(t, backend, metadata);
          Served(if g.thrown.Some? then AfterSendStatus(g.response, 500) else g.response, Some(invocation))
        else
          Served(if delegateThrows.Some? then AfterSendStatus(Fresh, 500) else Fresh, Some(invocation))
  }

  /** A V2 GET reaching the V2 get handler gets exactly one response, with
      the V2 version header: a 404 for an unrecognised request type, and a
      500 from the catch-all when metadata generation throws. */
  lemma V2GetAnswersOnce(fields: HandlerFields, t: GetRequestType, backend: Outcome<QueryResult, JsError>,
                         metadata: Outcome<string, JsError>, delegateThrows: Option<JsError>)
    requires fields.oDataGet == Some(V2)
    ensures var r := Serve(V2, fields, "GET", t, backend, metadata, delegateThrows);
            && r.invoked == Some(Invocation(ODataGet, V2, GetOp))
            && r.response.sends == 1
            && r.response.odataVersion == Some(ODataVersion2)
            && (t.OtherRequestType? <==> r.response.status == 404)
            && (t == METADATA && metadata.Failure? ==> r.response.status == 500)
  {
  }

  /** Under V4, MERGE is served exactly as PATCH is. */
  lemma MergeServedAsPatch(fields: HandlerFields, t: GetRequestType, backend: Outcome<QueryResult, JsError>,
                           metadata: Outcome<string, JsError>, delegateThrows: Option<JsError>)
    ensures Serve(V4, fields, "MERGE", t, backend, metadata, delegateThrows)
         == Serve(V4, fields, "PATCH", t, backend, metadata, delegateThrows)
    ensures Serve(V4, fields, "PATCH", t, backend, metadata, delegateThrows).invoked.Some? ==>
              Serve(V4, fields, "PATCH", t, backend, metadata, delegateThrows).invoked.value.op == PatchOp
  {
  }

  /** Under V2 no request invokes a put or patch operation, whatever the
      handler fields hold. */
  lemma V2NeverUpdates(fields: HandlerFields, verb: string, t: GetRequestType, backend: Outcome<QueryResult, JsError>,
                       metadata: Outcome<string, JsError>, delegateThrows: Option<JsError>)
    ensures var r := Serve(V2, fields, verb, t, backend, metadata, delegateThrows);
            r.invoked.Some? ==> r.invoked.value.op != PutOp && r.invoked.value.op != PatchOp
  {
  }

  /** With its version's handlers installed, a routed request always reaches
      that version's handler object, and a handler that throws is answered
      with 500, never 404. */
  lemma InstalledHandlersAreReached(v: ODataVersion, fields: HandlerFields, verb: string, t: GetRequestType,
                                    backend: Outcome<QueryResult, JsError>, metadata: Outcome<string, JsError>,
                                    delegateThrows: Option<JsError>)
    requires HandlersFor(v, fields)
    requires Route(v, verb).ToHandler?
    ensures var r := Serve(v, fields, verb, t, backend, metadata, delegateThrows);
            var d := Delegate(Route(v, verb).handler);
            && r.invoked == Some(Invocation(d.0, v, d.1))
            && (r.invoked.value != Invocation(ODataGet, V2, GetOp) && delegateThrows.Some? ==>
                  r.response.status == 500 && r.response.sends == 1)
  {
    RoutedSlotIsInstalled(v, verb);
  }

  /** The `this` of lib/odata.ts together with its module variable
      `oDataServerConfig`: what initialisation writes and requests read. */
  class Server {
    var config: Options?
    var oDataGet: Option<ODataVersion>
    var oDataPost: Option<ODataVersion>
    var oDataPut: Option<ODataVersion>
    var oDataDelete: Option<ODataVersion>
    var mounted: Option<ODataVersion>   // the version whose switch is mounted at the path

    constructor ()
      ensures config == null && Fields() == HandlerFields(None, None, None, None) && mounted == None
    {
      config := null;
      oDataGet, oDataPost, oDataPut, oDataDelete := None, None, None, None;
      mounted := None;
    }

    function Fields(): HandlerFields
      reads this
    {
      HandlerFields(oDataGet, oDataPost, oDataPut, oDataDelete)
    }

    /** The mounted switch finds its version's handler objects installed. */
    ghost predicate Valid()
      reads this
    {
      mounted.Some? ==> HandlersFor(mounted.value, Fields())
    }

    /** The exported initialisation function. The configuration it keeps is
        the caller's options object itself (or a new `{}` when there is
        none), updated in place. */
    method Init(options: Options?, maxPageSizeDefault: int) returns (outcome: InitOutcome)
      requires Valid() && mounted.None?
      modifies this, options
      ensures Valid()
      ensures config != null
      ensures options != null ==> config == options
      ensures options == null ==> fresh(config)
      ensures config.Value() ==
                Initialize(if options == null then EmptyConfig else old(options.Value()), maxPageSizeDefault).config
      ensures outcome ==
                OutcomeOf(Initialize(if options == null then EmptyConfig else old(options.Value()), maxPageSizeDefault))
      ensures outcome.Mounted? ==> Fields() == Install(old(Fields()), outcome.version) && mounted == Some(outcome.version)
      ensures !outcome.Mounted? ==> Fields() == old(Fields()) && mounted == old(mounted)
    {
      if options == null {
        config := new Options(EmptyConfig);
      } else {
        config := options;
      }
      var cfg := config;
      if !IsTruthyNumber(cfg.maxpagesize) {
        cfg.maxpagesize := Some(maxPageSizeDefault);
      }
      if options == null || options.path.None? {
        outcome := PathReadError;
        return;
      }
      var pathArr := Split(options.path.value, '/');
      cfg.odataPrefix := if |pathArr| > 1 then Some(pathArr[1]) else None;
      if !IsTruthyString(cfg.odataversion) {
        cfg.odataversion := Some("4");
      }
      if cfg.odataversion == Some("4") {
        HandleODataVersion4();
        outcome := Mounted(V4);
      } else if cfg.odataversion == Some("2") {
        HandleODataVersion2();
        outcome := Mounted(V2);
      } else {
        outcome := VersionNotSupported(cfg.odataversion);
      }
    }

    /** `_handleODataVersion2`: installs the V2 get, post and delete
        handlers and mounts the V2 switch. */
    method HandleODataVersion2()
      modifies this
      ensures Fields() == Install(old(Fields()), V2) && mounted == Some(V2)
      ensures config == old(config)
    {
      oDataGet := Some(V2);
      oDataPost := Some(V2);
      oDataDelete := Some(V2);
      mounted := Some(V2);
    }

    /** `_handleODataVersion4`: installs the V4 get, delete, post and put
        handlers and mounts the V4 switch. */
    method HandleODataVersion4()
      modifies this
      ensures Fields() == Install(old(Fields()), V4) && mounted == Some(V4)
      ensures config == old(config)
    {
      oDataGet := Some(V4);
      oDataDelete := Some(V4);
      oDataPost := Some(V4);
      oDataPut := Some(V4);
      mounted := Some(V4);
    }

    /** The mounted middleware: the method switch inside its try/catch. */
    method HandleRequest(verb: string, res: Response, t: GetRequestType,
                         backend: Outcome<QueryResult, JsError>, metadata: Outcome<string, JsError>,
                         delegateThrows: Option<JsError>) returns (invoked: Option<Invocation>)
      requires mounted.Some?
      requires res.Value() == Fresh
      modifies res
      ensures Served(res.Value(), invoked) ==
                Serve(mounted.value, Fields(), verb, t, backend, metadata, delegateThrows)
      // with the mounted version's handlers installed, a routed request always
      // reaches a handler object
      ensures Valid() && Route(mounted.value, verb).ToHandler? ==> invoked.Some?
    {
      match Route(mounted.value, verb) {
        case NotFound =>
          res.SendStatus(404);
          invoked := None;
        case ToHandler(h) =>
          var (slot, op) := Delegate(h);
          match Fields().Lookup(slot) {
            case None =>
              res.SendStatus(500);
              invoked := None;
            case Some(obj) =>
              invoked := Some(Invocation(slot, obj, op));
              if invoked.value == Invocation(ODataGet, V2, GetOp) {
                var thrown := ODataGetV2.HandleGet(res, t, backend, metadata);
                if thrown.Some? {
                  res.SendStatus(500);
                }
              } else if delegateThrows.Some? {
                res.SendStatus(500);
              }
          }
      }
    }
  }
}

/** Client scenarios: what a caller can conclude from the contracts alone. */
module Scenarios {

  import opened Values
  import opened VersionRouter
  import opened ServerConfig
  import opened Http
  import opened ODataGetV2
  import opened ODataServer

  /** A server configured for V2 at "/<seg>" answers PATCH with 404, even
      though the options named no page size, which initialisation filled in. */
  method V2DisallowsPatch(seg: string, fallback: int, t: GetRequestType,
                          backend: Outcome<QueryResult, JsError>, metadata: Outcome<string, JsError>)
    requires '/' !in seg && fallback != 0
  {
    var server := new Server();
    var options := new Options(ConfigValue(None, Some("/" + seg), None, Some("2")));
    PrefixIsSecondSegment("", seg, "");
    assert "" + "/" + seg == "/" + seg;
    var outcome := server.Init(options, fallback);
    assert outcome == Mounted(V2);
    assert options.maxpagesize == Some(fallback) && options.odataPrefix == Some(seg);
    var res := new Response();
    var invoked := server.HandleRequest("PATCH", res, t, backend, metadata, None);
    assert invoked.None? && res.status == 404 && res.sends == 1;
  }

  /** Without a version the server mounts V4, where MERGE reaches the put
      handler's patch operation. */
  method DefaultVersionMergesAsPatch(path: string, fallback: int, t: GetRequestType,
                                     backend: Outcome<QueryResult, JsError>, metadata: Outcome<string, JsError>)
  {
    var server := new Server();
    var options := new Options(ConfigValue(Some(50), Some(path), None, None));
    var outcome := server.Init(options, fallback);
    assert outcome == Mounted(V4);
    assert options.maxpagesize == Some(50) && options.odataversion == Some("4");
    var res := new Response();
    var invoked := server.HandleRequest("MERGE", res, t, backend, metadata, None);
    assert invoked == Some(Invocation(ODataPut, V4, PatchOp));
  }
}
