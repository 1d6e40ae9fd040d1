/** The handler's tests (internal/app/app_test.go, internal/app/app_unit_test.go)
    replayed against the model with scripted transports and writers. */
module Scenarios {
  import opened Wrappers
  import opened Http
  import opened Transport
  import opened Logging
  import opened App
  import Greeting
  import Decimal

  const MockURL: string := "http://127.0.0.1:8081"
  const SchemelessURL: string := "://invalid-url"
  const ExampleURL: string := "http://example.com"
  const ControlByteURL: string := [0x7f as char]
  /** What Go's client sends when its caller sets no User-Agent. */
  const GoClientAgent: string := "Go-http-client/1.1"

  lemma MockURLAccepted()
    ensures NewRequest(MockURL) == Ok(Request(MethodGet, MockURL))
  {
  }

  lemma ExampleURLAccepted()
    ensures NewRequest(ExampleURL) == Ok(Request(MethodGet, ExampleURL))
  {
  }

  lemma SchemelessURLRejected()
    ensures NewRequest(SchemelessURL) == Err(MissingProtocolScheme)
    ensures NewRequestError(SchemelessURL) == MissingProtocolScheme.Message(SchemelessURL)
  {
    assert BeforeFragment(SchemelessURL) == SchemelessURL;
    assert forall i :: 0 <= i < |SchemelessURL| ==> !IsControl(SchemelessURL[i]);
  }

  lemma MissingSchemeText()
    ensures MissingProtocolScheme.Message(SchemelessURL) == "parse \"" + SchemelessURL + "\": " + "missing protocol scheme"
  {
  }

  lemma ControlByteURLRejected()
    ensures NewRequest(ControlByteURL) == Err(InvalidControlCharacter)
  {
    assert BeforeFragment(ControlByteURL) == ControlByteURL;
    assert IsControl(ControlByteURL[0]);
  }

  lemma ItoaOf(n: nat)
    requires n == 200 || n == 204
    ensures Decimal.Itoa(n) == if n == 200 then "200" else "204"
  {
    assert Decimal.NatDigits(2) == "2";
    assert Decimal.NatDigits(20) == "20";
    assert Decimal.NatDigits(n) == if n == 200 then "200" else "204";
  }

  /** An upstream answering 204 and a caller identifying as `ua` ("test-agent" in the test). */
  method NoContentUpstream(ua: string) returns (status: Option<int>, body: string, requests: seq<Request>)
    ensures status == Some(200)
    ensures body == "hello " + ua + ". I called to " + MockURL + " and got code " + "204" + "\n"
    ensures requests == [Request("GET", MockURL)]
  {
    var client := new Client(Respond(204, None));
    var app := new App(client, MockURL);
    var w := new ResponseWriter(None);
    var log := new Log();
    MockURLAccepted();
    ItoaOf(204);
    var _ := app.HelloHandler(w, InboundRequest("GET", "/hello", Some(ua)), log);
    Greeting.FormatSpelledOut(ua, MockURL, 204);
    status, body, requests := w.status, w.body, client.requests;
  }

  /** A request without a User-Agent header reaching the handler: the greeting
      names an empty user-agent, whatever the (well-formed) target and the
      upstream code. */
  method MissingUserAgent(url: string, code: int) returns (status: Option<int>, body: string)
    requires NewRequest(url).Ok?
    ensures status == Some(200)
    ensures body == "hello " + "" + ". I called to " + url + " and got code " + Decimal.Itoa(code) + "\n"
  {
    var client := new Client(Respond(code, None));
    var app := new App(client, url);
    var w := new ResponseWriter(None);
    var log := new Log();
    var _ := app.HelloHandler(w, InboundRequest("GET", "/hello", None), log);
    Greeting.FormatSpelledOut("", url, code);
    status, body := w.status, w.body;
  }

  lemma GoClientGreeting(url: string, body: string)
    requires body == HelloReply(url, GoClientAgent, Respond(200, None)).body
    requires NewRequest(url).Ok?
    ensures "hello " + GoClientAgent <= body
    ensures Greeting.Parse(body, url) == Some((GoClientAgent, 200))
  {
    Greeting.ParseFormat(GoClientAgent, url, 200);
  }

  /** A caller that sets no User-Agent of its own but goes through Go's
      client, which sends "Go-http-client/1.1"; the upstream answers 200.  The
      greeting then names Go's client. */
  method DefaultClientUserAgent(url: string) returns (status: Option<int>, body: string)
    requires NewRequest(url).Ok?
    ensures status == Some(200)
    ensures "hello " + GoClientAgent <= body
    ensures Greeting.Parse(body, url) == Some((GoClientAgent, 200))
  {
    var client := new Client(Respond(200, None));
    var app := new App(client, url);
    var w := new ResponseWriter(None);
    var log := new Log();
    var _ := app.HelloHandler(w, InboundRequest("GET", "/hello", Some(GoClientAgent)), log);
    GoClientGreeting(url, w.body);
    status, body := w.status, w.body;
  }

  /** An unreachable upstream is a 502 carrying the transport's error. */
  method UnreachableUpstream() returns (status: Option<int>, body: string)
    ensures status == Some(502)
    ensures body == "connection refused" + "\n"
  {
    var client := new Client(Fail("connection refused"));
    var app := new App(client, MockURL);
    var w := new ResponseWriter(None);
    var log := new Log();
    MockURLAccepted();
    var _ := app.HelloHandler(w, InboundRequest("GET", "/hello", None), log);
    status, body := w.status, w.body;
  }

  /** A target without a scheme is a 500, and the transport is never called. */
  method SchemelessTarget() returns (status: Option<int>, body: string, calls: nat)
    ensures status == Some(500)
    ensures body == "parse \"" + SchemelessURL + "\": " + "missing protocol scheme" + "\n"
    ensures calls == 0
  {
    var client := new Client(Respond(204, None));
    var app := new App(client, SchemelessURL);
    var w := new ResponseWriter(None);
    var log := new Log();
    SchemelessURLRejected();
    MissingSchemeText();
    var _ := app.HelloHandler(w, InboundRequest("GET", "/hello", None), log);
    status, body, calls := w.status, w.body, |client.requests|;
  }

  /** A target holding the DEL control byte is a 500, and the transport is never called. */
  method ControlByteTarget() returns (status: Option<int>, calls: nat)
    ensures status == Some(500)
    ensures calls == 0
  {
    var client := new Client(Respond(204, None));
    var app := new App(client, ControlByteURL);
    var w := new ResponseWriter(None);
    var log := new Log();
    ControlByteURLRejected();
    var _ := app.HelloHandler(w, InboundRequest("GET", "/hello", None), log);
    status, calls := w.status, |client.requests|;
  }

  /** A body that fails to close is still closed once and leaves the 200 in place. */
  method FailingClose() returns (status: Option<int>, closes: nat)
    ensures status == Some(200)
    ensures closes == 1
  {
    var client := new Client(Respond(200, Some("close error")));
    var app := new App(client, ExampleURL);
    ExampleURLAccepted();
    var w := new ResponseWriter(None);
    var log := new Log();
    var acquired := app.HelloHandler(w, InboundRequest("GET", "/hello", None), log);
    assert log.events == [CloseFailed("close error")];
    status, closes := w.status, client.issued[0].closeCount;
  }

  /** A failing inbound write is logged; the handler still closes the upstream body. */
  method FailingWrite() returns (status: Option<int>, body: string, closes: nat)
    ensures status == Some(200)
    ensures body == ""
    ensures closes == 1
  {
    var client := new Client(Respond(200, None));
    var app := new App(client, ExampleURL);
    ExampleURLAccepted();
    var w := new ResponseWriter(Some("write error"));
    var log := new Log();
    var acquired := app.HelloHandler(w, InboundRequest("GET", "/hello", None), log);
    assert log.events == [WriteFailed("write error")];
    status, body, closes := w.status, w.body, client.issued[0].closeCount;
  }

  /** Any number of sequential calls, whatever the target and the transport:
      one request per call when the target is well-formed, and every body the
      transport handed out is released. */
  method SequentialCalls(url: string, script: Script, n: nat) returns (calls: nat, acquired: nat, released: bool)
    ensures calls == if NewRequest(url).Ok? then n else 0
    ensures acquired == if NewRequest(url).Ok? && script.Respond? then n else 0
    ensures released
  {
    var client := new Client(script);
    var app := new App(client, url);
    var i := 0;
    while i < n
      invariant 0 <= i <= n
      invariant |client.requests| == if NewRequest(url).Ok? then i else 0
      invariant |client.issued| == if NewRequest(url).Ok? && script.Respond? then i else 0
      invariant client.AllReleased()
    {
      var w := new ResponseWriter(None);
      var log := new Log();
      var _ := app.HelloHandler(w, InboundRequest("GET", "/hello", None), log);
      i := i + 1;
    }
    calls, acquired, released := |client.requests|, |client.issued|, client.AllReleased();
  }
}
