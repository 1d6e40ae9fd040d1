# Hello relay handler

A model of the `HelloHandler` HTTP handler. It lives in `internal/app/app.go` of a
small Go service that shows outside-in testing. The handler answers an inbound
request by making one GET request to a configured external URL through an
injected HTTP client. It then answers the caller in one of three ways:

- **500** with the error text, when the outbound request cannot be built
  (`http.NewRequest` refuses the URL);
- **502** with the transport's error text, when the client's `Do` fails;
- **200** with the greeting
  `hello <user-agent>. I called to <url> and got code <upstream status>`
  and a line break, when the upstream answered.

On the 200 path the upstream response body is closed by a deferred function.
A failing close is logged, and so is a failing write of the greeting. Neither
changes the status already written.

The project is split as the program is:

- `wrappers.dfy`: `Option` and `Result`.
- `decimal.dfy`: `%d` formatting of the upstream status code, with a parser
  that inverts it.
- `greeting.dfy`: the success body, and a reader that recovers the
  user-agent and the code from it.
- `http.dfy`: the parts of `net/http` the handler relies on.
  - `NewRequest` with its URL checks.
  - `Request.UserAgent`.
  - A `ResponseWriter` class whose status and body are updated in place.
    Only the first status written counts, and a write commits an implicit 200.
  - `http.Error`.
- `transport.dfy`: the injected client, as a scripted transport, and the
  response body as a resource object that counts its closes.
- `logging.dfy`: the process log, reduced to the events the handler reports.
- `app.dfy`: the `App` class and `HelloHandler` itself, specified by the pure
  `HelloReply` and `HelloLog`.
- `scenarios.dfy`: the handler's unit and integration tests
  (`internal/app/app_test.go`, `internal/app/app_unit_test.go`) restated as
  verified methods over scripted clients and writers.

The greeting follows the format string at `internal/app/app.go:36` exactly,
including the space before "and got code".

## Model

| member | source | states |
|---|---|---|
| Decimal.NatDigits | internal/app/app.go:35-40 | `%d` of a natural number is canonical decimal (digits only, no leading zero except "0"), and its value is the number |
| Decimal.Itoa | internal/app/app.go:35-40 | `%d` of an integer is non-empty, digits after an optional leading '-', and starts with '-' exactly when the integer is negative |
| Decimal.ParseNat | internal/app/app.go:35-40 | the reader of digit strings accepts exactly the canonical decimal strings, and what it returns renders back to the string it read |
| Decimal.ValuePositive | internal/app/app.go:35-40 | a canonical decimal string that does not start with "0" denotes a positive number, which is why "-0" is never a rendering |
| Decimal.NatDigitsOfValue | internal/app/app.go:35-40 | every canonical decimal string is the `%d` rendering of its own value |
| Decimal.ParseIntItoa | internal/app/app.go:35-40 | parsing the `%d` rendering of any integer gives back that integer |
| Decimal.ItoaParseInt | internal/app/app.go:35-40 | whatever the parser accepts is the `%d` rendering of the integer it returns |
| Decimal.ParseIntIff | internal/app/app.go:35-40 | the parser returns n exactly when the string is the `%d` rendering of n (both directions) |
| Greeting.Tail | internal/app/app.go:36 | the fixed text between the user-agent and the code ends in the space before the code |
| Greeting.Format | internal/app/app.go:35-40 | the greeting begins with "hello " and the user-agent, and ends in a line break |
| Greeting.FormatSpelledOut | internal/app/app.go:36 | the greeting is the single template "hello %s. I called to %s and got code %d\n" filled with user-agent, URL and code |
| Greeting.AfterLast | internal/app/app.go:36 | the part after the last separator is a suffix that holds no separator, and a separator precedes it when it is not the whole string |
| Greeting.AfterLastSplit | internal/app/app.go:36 | splitting at the last separator recovers any separator-free tail that follows one |
| Greeting.Parse | internal/app/app.go:35-40 | any body the reader accepts is exactly the greeting of the user-agent and code it returns |
| Greeting.ParseLine | internal/app/app.go:35-40 | any line the reader accepts is the greeting, without its line break, of the pair it returns |
| Greeting.ParseHead | internal/app/app.go:36 | an accepted head is "hello ", the returned user-agent, then the fixed tail for the URL |
| Greeting.ParseHeadFramed | internal/app/app.go:36 | the head reader recovers any user-agent framed by the template |
| Greeting.ParseFormat | internal/app/app.go:35-40 | reading the greeting back gives the user-agent and the upstream code it was made from |
| Greeting.FormatInjective | internal/app/app.go:35-40 | for a fixed URL, two greetings are equal only when their user-agents and their codes are equal |
| Http.FirstIndex | internal/app/app.go:17 | the first occurrence of a character: it is there, and none comes before it |
| Http.BeforeFragment | internal/app/app.go:17 | the part of the URL before its first '#' is a prefix without '#', followed by '#' when it is shorter than the URL |
| Http.NewRequest | internal/app/app.go:17-21 | the request is built exactly when the part before the fragment has no control byte and does not begin with ':'; it is then a GET for the URL unchanged, the error is the control-character one exactly when that part holds a control byte, and a missing-scheme error means the URL begins with ':' |
| Http.FragmentIgnored | internal/app/app.go:17-21 | appending a fragment to a URL without '#' changes neither whether the request is built nor the error it draws |
| Http.UrlError.Message | internal/app/app.go:19 | the error text starts with `parse "<url>": ` and a non-empty reason follows |
| Http.NewRequestError | internal/app/app.go:17-19 | the 500 message is `parse "<part before the fragment>": ` then the reason, which is the invalid-control-character text exactly when that part holds a control byte and `missing protocol scheme` otherwise |
| Http.UserAgent | internal/app/app.go:34 | the user-agent is the header's value, or "" when the header is absent |
| Http.ErrorBody | internal/app/app.go:19 | the error body is the message followed by exactly one line break |
| Http.ResponseWriter.WriteHeader | internal/app/app.go:42 | only the first status takes effect; the body is unchanged |
| Http.ResponseWriter.Write | internal/app/app.go:43-45 | a write commits 200 if no status was written, returns the writer's error, and appends the data only when it succeeds |
| Http.Error | internal/app/app.go:19 | the status is set if none was written, and the message plus a line break is appended when writing succeeds |
| Transport.Body.Close | internal/app/app.go:28-32 | closing counts one more close and returns the body's close error |
| Transport.Client.Do | internal/app/app.go:23-27 | the request is recorded; a failing transport returns its error and hands out nothing; an answering one returns its status and a fresh, unclosed body that it records as issued |
| Logging.Log.Printf | internal/app/app.go:30 | one event is appended to the log |
| App.HelloReply | internal/app/app.go:16-46 | status 500 exactly when the request cannot be built, 502 exactly when the transport fails, 200 exactly when it answers; the body is the error line or the greeting |
| App.SuccessBodyIdentifiesCall | internal/app/app.go:34-42 | every 200 body reads back as the caller's user-agent and the upstream status code |
| App.ReplyIgnoresCloseError | internal/app/app.go:28-32 | the outcome of closing the upstream body never changes the reply |
| App.HelloLog | internal/app/app.go:28-45 | nothing is logged on the error paths; on the 200 path a failed write and then a failed close are logged, in that order |
| App.App.HelloHandler | internal/app/app.go:16-46 | the writer ends with the status and body of `HelloReply` (respecting an earlier status and a failing writer); the log grows by `HelloLog`; one GET for the configured URL is sent exactly when it can be built; a body is acquired exactly on the 200 path, and it is then the only body issued and is closed exactly once |
| Scenarios.NoContentUpstream | internal/app/app_test.go:15-81 | an upstream answering 204 gives status 200, the greeting with code "204", and exactly one GET to the mock URL |
| Scenarios.UnreachableUpstream | internal/app/app_test.go:83-121 | a transport failure gives 502 with the transport's error as a line |
| Scenarios.SchemelessTarget | internal/app/app_test.go:123-153 | a target without a scheme gives 500 with the URL parse error as a line, and the transport is never called |
| Scenarios.MissingUserAgent | internal/app/app.go:34 | a request reaching the handler without a User-Agent header gets a greeting naming an empty user-agent |
| Scenarios.DefaultClientUserAgent | internal/app/app_test.go:155-201 | a caller going through Go's client, which sends `Go-http-client/1.1`, with an upstream answering 200, gets status 200 and a greeting that starts `hello Go-http-client/1.1` and reads back as that user-agent and code 200 |
| Scenarios.ControlByteTarget | internal/app/app_unit_test.go:64-80 | a target holding a control byte gives 500, and the transport is never called |
| Scenarios.FailingClose | internal/app/app_unit_test.go:82-112 | a body whose close fails leaves the 200 in place and is closed exactly once |
| Scenarios.FailingWrite | internal/app/app_unit_test.go:114-141 | a failing write leaves status 200 with nothing written, and the body is still closed exactly once |
| Scenarios.SequentialCalls | internal/app/app.go:28-32 | across any number of calls, one request per call is sent when the target is well-formed, and every body the transport handed out is released |

## Left out

- `cmd/server/main.go` is not part of this model: environment variables, server startup, signal handling and graceful shutdown.
- `internal/httpclient/client.go` is not part of this model. The real client makes network calls with a 5-second timeout. Here a `Transport.Script` stands in for it and fixes, per client, whether `Do` answers or fails.
- `test/wiremock/client.go` and `test/blackbox/hello_test.go` drive a running server and a mock over the network. They are not part of this model.
- Http.NewRequest: only two of `url.Parse`'s failures are modelled: a control byte before the fragment, and an empty scheme (a leading ':'). Other rejections, such as a malformed host, port or percent-escape, are not. Method validation is not modelled either, because the handler always passes `GET`.
- Http.UrlError.Message: the URL is quoted with plain double quotes. Go's `%q` escaping of special characters inside it is not modelled.
- Http.Error: the response headers it sets are not modelled. These are Content-Type, X-Content-Type-Options and the removal of Content-Length. The model has no headers.
- Logging.Log.Printf: the log text and its timestamp are not modelled. Only which event is reported is kept, as ghost state, because logging is output only.
- App.App.HelloHandler: leak-freedom is stated per call: the body acquired in this call is the only one issued, and it is closed exactly once. That every body handed out so far stays released across calls is proved for sequential calls in Scenarios.SequentialCalls, not stated by the handler itself.
- A transport that returns neither a response nor an error would make the handler dereference nil and panic. The scripted transport cannot do that, so this path is not modelled.
- Strings are sequences of characters, not UTF-8 bytes. Go's writer and `%s` work on bytes, which makes no difference to the properties stated here.
- Header canonicalisation and a User-Agent header given several times are not modelled. The header is one optional value.
- Concurrent requests are not modelled. Go's server runs handlers in parallel on a shared `App`, whose fields are never changed.
