/** The part of the HTTP response object the dispatch layer writes: the
    OData version header, the Content-Type header, the status code, the
    body, and how many times a response was sent. A new response has status
    200 and nothing sent. */
module Http {

  import opened Values

  /** The protocol-version constants stamped into the version header. */
  datatype VersionConstant = ODataVersion2 | ODataVersion4

  /** What a response body is made of. */
  datatype Body =
    | RequestResult(json: string)   // a result object's `getRequestResult()`
    | Document(text: string)        // a string sent as is (the metadata XML)
    | ErrorString(text: string)     // an error's `toString()`
    | StatusMessage(code: int)      // the standard reason phrase `sendStatus` sends

  datatype ResponseValue = ResponseValue(
    odataVersion: Option<VersionConstant>,
    contentType: Option<string>,
    status: int,
    body: Option<Body>,
    sends: nat)

  const Fresh := ResponseValue(None, None, 200, None, 0)

  class Response {
    var odataVersion: Option<VersionConstant>
    var contentType: Option<string>
    var status: int
    var body: Option<Body>
    var sends: nat

    constructor ()
      ensures Value() == Fresh
    {
      odataVersion, contentType, status, body, sends := None, None, 200, None, 0;
    }

    function Value(): ResponseValue
      reads this
    {
      ResponseValue(odataVersion, contentType, status, body, sends)
    }

    /** Sets the OData version header. */
    method SetODataVersion(v: VersionConstant)
      modifies this
      ensures Value() == old(Value()).(odataVersion := Some(v))
    {
      odataVersion := Some(v);
    }

    /** `res.set('Content-Type', t)`. */
    method SetContentType(t: string)
      modifies this
      ensures Value() == old(Value()).(contentType := Some(t))
    {
      contentType := Some(t);
    }

    /** `res.status(code)`: sets the status without sending. */
    method Status(code: int)
      modifies this
      ensures Value() == old(Value()).(status := code)
    {
      status := code;
    }

    /** `res.send(b)`: sends `b` with the current status. */
    method Send(b: Body)
      modifies this
      ensures Value() == old(Value()).(body := Some(b), sends := old(sends) + 1)
    {
      body := Some(b);
      sends := sends + 1;
    }

    /** `res.sendStatus(code)`: sends the status with its reason phrase. */
    method SendStatus(code: int)
      modifies this
      ensures Value() == AfterSendStatus(old(Value()), code)
    {
      status := code;
      body := Some(StatusMessage(code));
      sends := sends + 1;
    }
  }

  /** The response value after `res.sendStatus(code)`. */
  function AfterSendStatus(r: ResponseValue, code: int): ResponseValue {
    r.(status := code, body := Some(StatusMessage(code)), sends := r.sends + 1)
  }
}
