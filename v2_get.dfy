/** The OData V2 GET handler (lib/v2/get/odata_get.ts): it stamps the V2
    version header, then answers according to the request type. Service,
    collection and entity requests each make one backend call, whose settled
    outcome is an input here; a metadata request sends the XML document
    that the metadata generator returns, which is an input too and may be a
    thrown error. */
module ODataGetV2 {

  import opened Values
  import opened Http

  /** The request types the classifier reports; any other value it may
      report is `OtherRequestType`. */
  datatype GetRequestType = SERVICE | METADATA | COLLECTION | ENTITY | OtherRequestType(name: string)

  /** A resolved service-document, collection or entity result, reduced to
      what its `getRequestResult()` returns. */
  datatype QueryResult = QueryResult(requestResult: string)

  /** The response a GET leaves behind, and the error it throws, if any. */
  datatype Handled = Handled(response: ResponseValue, thrown: Option<JsError>)

  const XmlContentType := "application/xml"

  /** The request types answered from a backend call. */
  predicate IsDataRequest(t: GetRequestType) {
    t == SERVICE || t == COLLECTION || t == ENTITY
  }

  /** The response a GET of type `t` produces on a fresh response, given the
      outcome of the branch's backend call and of metadata generation (each
      branch uses at most one of them). */
  function GetResponse(t: GetRequestType, backend: Outcome<QueryResult, JsError>,
                       metadata: Outcome<string, JsError>): (r: Handled)
    // the version header is set on every GET, before anything can fail
    ensures r.response.odataVersion == Some(ODataVersion2)
    // only a failing metadata generator throws, and then nothing is sent
    ensures r.thrown.Some? <==> t == METADATA && metadata.Failure?
    ensures r.thrown.Some? ==> r.thrown == Some(metadata.error) && r.response.sends == 0
    // otherwise exactly one response is sent
    ensures r.thrown.None? ==> r.response.sends == 1
    ensures r.response.status == 404 <==> t.OtherRequestType?
    ensures r.response.status == 500 <==> IsDataRequest(t) && backend.Failure?
    ensures r.response.status == 200 <==> !t.OtherRequestType? && (IsDataRequest(t) ==> backend.Success?)
    // only a failed collection request carries the error in its body
    ensures (r.response.body.Some? && r.response.body.value.ErrorString?) <==> t == COLLECTION && backend.Failure?
    ensures t == COLLECTION && backend.Failure? ==> r.response.body == Some(ErrorString(backend.error.text))
    ensures IsDataRequest(t) && backend.Success? ==>
              r.response.body == Some(RequestResult(backend.value.requestResult))
    ensures r.response.contentType == Some(XmlContentType) <==> t == METADATA && metadata.Success?
    ensures !(t == METADATA && metadata.Success?) ==> r.response.contentType.None?
    // the status-only answers carry just the reason phrase, and a throw sends nothing
    ensures t.OtherRequestType? || ((t == SERVICE || t == ENTITY) && backend.Failure?) ==>
              r.response.body == Some(StatusMessage(r.response.status))
    ensures r.thrown.Some? ==> r.response.body.None?
    ensures t == METADATA && metadata.Success? ==> r.response.body == Some(Document(metadata.value))
  {
    var stamped := Fresh.(odataVersion := Some(ODataVersion2));
    match t
    case SERVICE => Handled(Answer(stamped, backend, false), None)
    case METADATA =>
      (match metadata
       case Success(doc) =>
         Handled(stamped.(contentType := Some(XmlContentType), body := Some(Document(doc)), sends := 1), None)
       case Failure(e) => Handled(stamped, Some(e)))
    case COLLECTION => Handled(Answer(stamped, backend, true), None)
    case ENTITY => Handled(Answer(stamped, backend, false), None)
    case OtherRequestType(_) => Handled(AfterSendStatus(stamped, 404), None)
  }

  /** The answer to a backend call: the result on success; on failure a 500
      carrying the error's text when `errorBody`, a bare 500 otherwise. */
  function Answer(r: ResponseValue, backend: Outcome<QueryResult, JsError>, errorBody: bool): ResponseValue {
    match backend
    case Success(result) => r.(body := Some(RequestResult(result.requestResult)), sends := r.sends + 1)
    case Failure(e) =>
      if errorBody then r.(status := 500, body := Some(ErrorString(e.text)), sends := r.sends + 1)
      else AfterSendStatus(r, 500)
  }

  /** `ODataGet.handleGet`, with the backend outcome and the metadata
      document as inputs; returns the error it throws, if any. */
  method HandleGet(res: Response, t: GetRequestType, backend: Outcome<QueryResult, JsError>,
                   metadata: Outcome<string, JsError>) returns (thrown: Option<JsError>)
    requires res.Value() == Fresh
    modifies res
    ensures Handled(res.Value(), thrown) == GetResponse(t, backend, metadata)
  {
    res.SetODataVersion(ODataVersion2);
    thrown := None;
    match t {
      case SERVICE =>
        match backend {
          case Success(serviceDocumentResult) => res.Send(RequestResult(serviceDocumentResult.requestResult));
          case Failure(_) => res.SendStatus(500);
        }
      case METADATA =>
        thrown := GetMetadataDocument(res, metadata);
      case COLLECTION =>
        match backend {
          case Success(collectionResult) => res.Send(RequestResult(collectionResult.requestResult));
          case Failure(error) =>
            res.Status(500);
            res.Send(ErrorString(error.text));
        }
      case ENTITY =>
        match backend {
          case Success(entityResult) => res.Send(RequestResult(entityResult.requestResult));
          case Failure(_) => res.SendStatus(500);
        }
      case OtherRequestType(_) =>
        res.SendStatus(404);
    }
  }

  /** `_getMetadataDocument`: sets the XML content type and sends the
      generated document; a generator that throws leaves the response as it
      was and the error propagates. */
  method GetMetadataDocument(res: Response, metadata: Outcome<string, JsError>) returns (thrown: Option<JsError>)
    modifies res
    ensures metadata.Failure? ==> thrown == Some(metadata.error) && res.Value() == old(res.Value())
    ensures metadata.Success? ==>
              && thrown == None
              && res.Value() == old(res.Value()).(contentType := Some(XmlContentType),
                                                  body := Some(Document(metadata.value)),
                                                  sends := old(res.sends) + 1)
  {
    match metadata {
      case Failure(e) =>
        thrown := Some(e);
      case Success(doc) =>
        res.SetContentType(XmlContentType);
        res.Send(Document(doc));
        thrown := None;
    }
  }
}
