/** The hello endpoint (internal/app/app.go): one outbound GET to the
    configured URL, mapped to 500, 502 or 200, with the upstream body closed on
    every path that acquired it. */
module App {
  import opened Wrappers
  import opened Http
  import opened Transport
  import opened Logging
  import Greeting

  /** The status and body the handler means to send. */
  datatype Reply = Reply(status: int, body: string)

  /** What the hello endpoint answers for target `url`, user-agent `ua` and a
      transport that behaves as `script`. */
  function HelloReply(url: string, ua: string, script: Script): (r: Reply)
    ensures r.status == StatusInternalServerError <==> NewRequest(url).Err?
    ensures r.status == StatusBadGateway <==> NewRequest(url).Ok? && script.Fail?
    ensures r.status == StatusOK <==> NewRequest(url).Ok? && script.Respond?
    ensures r.status in {StatusInternalServerError, StatusBadGateway, StatusOK}
    ensures NewRequest(url).Err? ==> r.body == ErrorBody(NewRequestError(url))
    ensures NewRequest(url).Ok? && script.Fail? ==> r.body == ErrorBody(script.message)
    ensures NewRequest(url).Ok? && script.Respond? ==> r.body == Greeting.Format(ua, url, script.statusCode)
  {
    match NewRequest(url)
    case Err(_) => Reply(StatusInternalServerError, ErrorBody(NewRequestError(url)))
    case Ok(_) =>
      match script
      case Fail(message) => Reply(StatusBadGateway, ErrorBody(message))
      case Respond(code, _) => Reply(StatusOK, Greeting.Format(ua, url, code))
  }

  /** A 200 body names the caller's user-agent and the upstream code, and no
      other pair gives the same body. */
  lemma SuccessBodyIdentifiesCall(url: string, ua: string, script: Script)
    requires HelloReply(url, ua, script).status == StatusOK
    ensures Greeting.Parse(HelloReply(url, ua, script).body, url) == Some((ua, script.statusCode))
  {
    Greeting.ParseFormat(ua, url, script.statusCode);
  }

  /** How the upstream body's close ends has no bearing on the reply. */
  lemma ReplyIgnoresCloseError(url: string, ua: string, code: int, e1: Option<string>, e2: Option<string>)
    ensures HelloReply(url, ua, Respond(code, e1)) == HelloReply(url, ua, Respond(code, e2))
  {
  }

  /** The events the handler logs: a failed write of the greeting, then a
      failed close of the upstream body; nothing on the error paths. */
  function HelloLog(url: string, script: Script, writeError: Option<string>): (events: seq<Event>)
    ensures var served := NewRequest(url).Ok? && script.Respond?;
      && |events| == (if served && writeError.Some? then 1 else 0) + (if served && script.closeError.Some? then 1 else 0)
      && (served && writeError.Some? ==> events[0] == WriteFailed(writeError.value))
      && (served && script.closeError.Some? ==> events[|events| - 1] == CloseFailed(script.closeError.value))
  {
    if NewRequest(url).Ok? && script.Respond? then
      (if writeError.Some? then [WriteFailed(writeError.value)] else []) +
      (if script.closeError.Some? then [CloseFailed(script.closeError.value)] else [])
    else
      []
  }

  /** The application: a transport and the target URL, both fixed at construction. */
  class App {
    const client: Client
    const externalURL: string

    constructor (client: Client, externalURL: string)
      ensures this.client == client && this.externalURL == externalURL
    {
      this.client := client;
      this.externalURL := externalURL;
    }

    /** Serves one request to the hello endpoint.  `acquired` is the upstream
        body the handler took ownership of, if any. */
    method HelloHandler(w: ResponseWriter, r: InboundRequest, log: Log) returns (ghost acquired: Option<Body>)
      modifies w, log, client
      ensures
        var reply := HelloReply(externalURL, UserAgent(r), client.script);
        && w.status == (if old(w.status).None? then Some(reply.status) else old(w.status))
        && w.body == (if w.writeError.None? then old(w.body) + reply.body else old(w.body))
      ensures log.events == old(log.events) + HelloLog(externalURL, client.script, w.writeError)
      ensures client.requests ==
        old(client.requests) + if NewRequest(externalURL).Ok? then [Request(MethodGet, externalURL)] else []
      ensures acquired.Some? <==> NewRequest(externalURL).Ok? && client.script.Respond?
      ensures acquired.Some? ==>
        && acquired.value.closeCount == 1
        && client.issued == old(client.issued) + [acquired.value]
      ensures acquired.None? ==> client.issued == old(client.issued)
    {
      ghost var reply := HelloReply(externalURL, UserAgent(r), client.script);
      ghost var events := HelloLog(externalURL, client.script, w.writeError);
      var req := NewRequest(externalURL);
      if req.Err? {
        assert reply == Reply(StatusInternalServerError, ErrorBody(NewRequestError(externalURL))) && events == [];
        Error(w, NewRequestError(externalURL), StatusInternalServerError);
        return None;
      }

      var resp := client.Do(req.value);
      if resp.Err? {
        assert reply == Reply(StatusBadGateway, ErrorBody(resp.error)) && events == [];
        Error(w, resp.error, StatusBadGateway);
        return None;
      }
      var body := resp.value.body;
      acquired := Some(body);

      var ua := UserAgent(r);
      var msg := Greeting.Format(ua, externalURL, resp.value.statusCode);
      assert reply == Reply(StatusOK, msg);

      w.WriteHeader(StatusOK);
      var writeErr := w.Write(msg);
      if writeErr.Some? {
        log.Printf(WriteFailed(writeErr.value));
      }

      // The deferred close: runs once, whether or not the write failed.
      var closeErr := body.Close();
      if closeErr.Some? {
        log.Printf(CloseFailed(closeErr.value));
      }
    }
  }
}
