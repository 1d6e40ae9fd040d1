/** The parts of Go's net/http that the hello handler touches: building an
    outbound request, reading the inbound user-agent, and writing a response
    through a `ResponseWriter` (including `http.Error`). */
module Http {
  import opened Wrappers

  const StatusOK: int := 200
  const StatusInternalServerError: int := 500
  const StatusBadGateway: int := 502

  const MethodGet: string := "GET"

  /** An outbound request: the method and the target URL; no body, no headers. */
  datatype Request = Request(verb: string, url: string)

  /** The ways URL parsing inside `http.NewRequest` can reject a target. */
  datatype UrlError = InvalidControlCharacter | MissingProtocolScheme {

    /** The text of the `*url.Error` for `url`, as `err.Error()` returns it. */
    function Message(url: string): (m: string)
      ensures "parse \"" + url + "\": " <= m
      ensures |m| > |"parse \"" + url + "\": "|
    {
      "parse \"" + url + "\": " +
      match this
      case InvalidControlCharacter => "net/url: invalid control character in URL"
      case MissingProtocolScheme => "missing protocol scheme"
    }
  }

  /** An ASCII control byte, which URL parsing refuses. */
  predicate IsControl(c: char) {
    c < ' ' || c as int == 0x7f
  }

  /** The position of the first `c` in `s`, which holds one. */
  function FirstIndex(s: string, c: char): (k: nat)
    requires c in s
    ensures k < |s| && s[k] == c && c !in s[..k]
  {
    if s[0] == c then 0 else
      var k := FirstIndex(s[1..], c) + 1;
      assert s[..k] == [s[0]] + s[1..][..k - 1];
      k
  }

  /** The part of `url` before its first '#': what URL parsing examines
      before it turns to the fragment. */
  function BeforeFragment(url: string): (u: string)
    ensures u <= url && '#' !in u
    ensures |u| < |url| ==> url[|u|] == '#'
  {
    if '#' in url then url[..FirstIndex(url, '#')] else url
  }

  /** `http.NewRequest(http.MethodGet, url, nil)`.  URL parsing refuses a
      control byte before the fragment first, then an empty scheme (the part
      before the fragment begins with ':'); the error quotes that part. */
  function NewRequest(url: string): (r: Result<Request, UrlError>)
    ensures var u := BeforeFragment(url);
      r.Ok? <==> (forall i :: 0 <= i < |u| ==> !IsControl(u[i])) && !(|u| > 0 && u[0] == ':')
    ensures r.Ok? ==> r.value.verb == MethodGet && r.value.url == url
    ensures var u := BeforeFragment(url);
      r == Err(InvalidControlCharacter) <==> exists i :: 0 <= i < |u| && IsControl(u[i])
    ensures r == Err(MissingProtocolScheme) ==> url[0] == ':'
  {
    var u := BeforeFragment(url);
    if exists i :: 0 <= i < |u| && IsControl(u[i]) then
      Err(InvalidControlCharacter)
    else if |u| > 0 && u[0] == ':' then
      Err(MissingProtocolScheme)
    else
      Ok(Request(MethodGet, url))
  }

  /** The text `err.Error()` gives for a failed `NewRequest(url)`: the part
      of the URL before the fragment, quoted, then the reason, which names
      the control character exactly when that part holds one. */
  function NewRequestError(url: string): (m: string)
    requires NewRequest(url).Err?
    ensures var u := BeforeFragment(url);
      m == "parse \"" + u + "\": " +
        if exists i :: 0 <= i < |u| && IsControl(u[i]) then
          "net/url: invalid control character in URL"
        else
          "missing protocol scheme"
  {
    NewRequest(url).error.Message(BeforeFragment(url))
  }

  /** A fragment plays no part in whether a URL is accepted, nor in the error
      it draws: only the part before the first '#' is examined. */
  lemma FragmentIgnored(u: string, f: string)
    requires '#' !in u
    ensures BeforeFragment(u + "#" + f) == u
    ensures NewRequest(u + "#" + f).Ok? <==> NewRequest(u).Ok?
    ensures NewRequest(u + "#" + f).Err? ==> NewRequest(u + "#" + f).error == NewRequest(u).error
  {
    assert (u + "#" + f)[..|u|] == u;
  }

  /** An inbound request; only its User-Agent header matters to the handler. */
  datatype InboundRequest = InboundRequest(verb: string, path: string, userAgentHeader: Option<string>)

  /** `r.UserAgent()`: the header's value, or the empty string when it is absent. */
  function UserAgent(r: InboundRequest): (ua: string)
    ensures r.userAgentHeader == Some(ua) || (r.userAgentHeader.None? && ua == "")
  {
    r.userAgentHeader.GetOr("")
  }

  /** The inbound response under construction.  `writeError`, when present, is
      the error every `Write` fails with (a connection reset, say). */
  class ResponseWriter {
    var status: Option<int>
    var body: string
    const writeError: Option<string>

    constructor (writeError: Option<string>)
      ensures status == None && body == [] && this.writeError == writeError
    {
      status := None;
      body := [];
      this.writeError := writeError;
    }

    /** Only the first status written takes effect. */
    method WriteHeader(code: int)
      modifies this
      ensures status == if old(status).None? then Some(code) else old(status)
      ensures body == old(body)
    {
      if status.None? {
        status := Some(code);
      }
    }

    /** Commits status 200 if no status was written yet, then appends `data`
        unless writing fails. */
    method Write(data: string) returns (err: Option<string>)
      modifies this
      ensures status == if old(status).None? then Some(StatusOK) else old(status)
      ensures err == writeError
      ensures body == if writeError.None? then old(body) + data else old(body)
    {
      if status.None? {
        status := Some(StatusOK);
      }
      err := writeError;
      if err.None? {
        body := body + data;
      }
    }
  }

  /** The body `http.Error` writes: the message and a line break (`fmt.Fprintln`). */
  function ErrorBody(message: string): (b: string)
    ensures message <= b && |b| == |message| + 1 && b[|message|] == '\n'
  {
    message + "\n"
  }

  /** `http.Error(w, message, code)`: writes the status, then the message as a
      line; a failing write is ignored. */
  method Error(w: ResponseWriter, message: string, code: int)
    modifies w
    ensures w.status == if old(w.status).None? then Some(code) else old(w.status)
    ensures w.body == if w.writeError.None? then old(w.body) + ErrorBody(message) else old(w.body)
  {
    w.WriteHeader(code);
    var _ := w.Write(ErrorBody(message));
  }
}
