/** The outbound transport behind the handler's `HTTPClient` field: a scripted
    stand-in for `Do`, and the response body it hands out as a resource that
    must be closed. */
module Transport {
  import opened Wrappers
  import opened Http

  /** An upstream response body.  `closeError`, when present, is the error
      `Close` reports. */
  class Body {
    var closeCount: nat
    const closeError: Option<string>

    constructor (closeError: Option<string>)
      ensures closeCount == 0 && this.closeError == closeError
    {
      closeCount := 0;
      this.closeError := closeError;
    }

    method Close() returns (err: Option<string>)
      modifies this
      ensures closeCount == old(closeCount) + 1
      ensures err == closeError
    {
      closeCount := closeCount + 1;
      err := closeError;
    }
  }

  /** `*http.Response`: the upstream status code and its body. */
  datatype Response = Response(statusCode: int, body: Body)

  /** What every call to `Do` yields: a response with the given status (whose
      body fails to close with `closeError`, if present), or a failure. */
  datatype Script =
    | Respond(statusCode: int, closeError: Option<string>)
    | Fail(message: string)

  /** A transport that answers every request by its script and records the
      requests it was given and the bodies it handed out. */
  class Client {
    const script: Script
    var requests: seq<Request>
    var issued: seq<Body>

    constructor (script: Script)
      ensures this.script == script && requests == [] && issued == []
    {
      this.script := script;
      requests := [];
      issued := [];
    }

    /** Every body handed out so far has been closed exactly once. */
    predicate AllReleased()
      reads this, issued
    {
      forall i :: 0 <= i < |issued| ==> issued[i].closeCount == 1
    }

    method Do(req: Request) returns (r: Result<Response, string>)
      modifies this
      ensures requests == old(requests) + [req]
      ensures script.Fail? ==> r == Err(script.message) && issued == old(issued)
      ensures script.Respond? ==>
        && r.Ok? && r.value.statusCode == script.statusCode
        && fresh(r.value.body) && r.value.body.closeCount == 0
        && r.value.body.closeError == script.closeError
        && issued == old(issued) + [r.value.body]
    {
      requests := requests + [req];
      match script
      case Fail(message) =>
        r := Err(message);
      case Respond(code, closeError) =>
        var body := new Body(closeError);
        issued := issued + [body];
        r := Ok(Response(code, body));
    }
  }
}
