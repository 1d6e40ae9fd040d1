/** The success body of the hello endpoint (internal/app/app.go:35-40) and a
    reader that recovers the user-agent and the upstream status code from it,
    given the configured target URL. */
module Greeting {
  import opened Wrappers
  import opened Decimal

  const Hello: string := "hello "
  const CalledTo: string := ". I called to "
  const GotCode: string := " and got code "

  /** The fixed text between the user-agent and the status code. */
  function Tail(url: string): (t: string)
    ensures |t| > 0 && t[|t| - 1] == ' '
  {
    CalledTo + url + GotCode
  }

  /** `fmt.Sprintf("hello %s. I called to %s and got code %d\n", ua, url, code)`. */
  function Format(ua: string, url: string, code: int): (s: string)
    ensures Hello + ua <= s
    ensures s[|s| - 1] == '\n'
  {
    Hello + ua + Tail(url) + Itoa(code) + "\n"
  }

  /** The greeting written out as one literal template. */
  lemma FormatSpelledOut(ua: string, url: string, code: int)
    ensures Format(ua, url, code) == "hello " + ua + ". I called to " + url + " and got code " + Itoa(code) + "\n"
  {
  }

  /** The part of `s` after its last occurrence of `c` (all of `s` if there is none). */
  function AfterLast(s: string, c: char): (t: string)
    ensures |t| <= |s| && s[|s| - |t|..] == t
    ensures c !in t
    ensures |t| < |s| ==> s[|s| - |t| - 1] == c
  {
    if s == [] || s[|s| - 1] == c then
      []
    else
      var t := AfterLast(s[..|s| - 1], c) + [s[|s| - 1]];
      assert s[|s| - |t|..] == s[..|s| - 1][|s| - |t|..] + [s[|s| - 1]];
      t
  }

  /** Splitting at the last `c` finds the tail that follows a `c` and holds none. */
  lemma {:induction false} AfterLastSplit(p: string, c: char, t: string)
    requires c !in t
    ensures AfterLast(p + [c] + t, c) == t
  {
    var s := p + [c] + t;
    if t != [] {
      assert s[..|s| - 1] == p + [c] + t[..|t| - 1];
      AfterLastSplit(p, c, t[..|t| - 1]);
      assert t == t[..|t| - 1] + [t[|t| - 1]];
    }
  }

  /** Reads a greeting for target `url` back into its user-agent and status
      code; whatever it accepts is exactly the greeting of what it returns. */
  function Parse(body: string, url: string): (r: Option<(string, int)>)
    ensures r.Some? ==> body == Format(r.value.0, url, r.value.1)
  {
    if |body| == 0 || body[|body| - 1] != '\n' then
      None
    else
      var line := body[..|body| - 1];
      var r := ParseLine(line, url);
      assert body == line + "\n";
      r
  }

  /** `Parse` without the final newline. */
  function ParseLine(line: string, url: string): (r: Option<(string, int)>)
    ensures r.Some? ==> line == Hello + r.value.0 + Tail(url) + Itoa(r.value.1)
  {
    var digits := AfterLast(line, ' ');
    match ParseInt(digits)
    case None => None
    case Some(code) =>
      var k := |line| - |digits|;
      match ParseHead(line[..k], url)
      case None => None
      case Some(ua) =>
        ParseIntIff(digits, code);
        Reassemble(line, k, Hello + ua + Tail(url), Itoa(code));
        Some((ua, code))
  }

  /** A line cut at `k` is its two parts put back together. */
  lemma Reassemble(line: string, k: nat, head: string, tail: string)
    requires k <= |line| && line[..k] == head && line[k..] == tail
    ensures line == head + tail
  {
    assert line == line[..k] + line[k..];
  }

  /** The user-agent framed by `Hello` and `Tail(url)`, if `head` is so framed. */
  function ParseHead(head: string, url: string): (r: Option<string>)
    ensures r.Some? ==> head == Hello + r.value + Tail(url)
  {
    var tail := Tail(url);
    if |head| >= |Hello| + |tail| && head[..|Hello|] == Hello && head[|head| - |tail|..] == tail then
      var ua := head[|Hello|..|head| - |tail|];
      assert head == head[..|Hello|] + ua + head[|head| - |tail|..];
      Some(ua)
    else
      None
  }

  lemma ParseHeadFramed(ua: string, url: string)
    ensures ParseHead(Hello + ua + Tail(url), url) == Some(ua)
  {
    var tail := Tail(url);
    var head := Hello + ua + tail;
    assert head[..|Hello|] == Hello;
    assert head[|head| - |tail|..] == tail;
    assert head[|Hello|..|head| - |tail|] == ua;
  }

  /** The greeting carries its user-agent and status code recoverably. */
  lemma ParseFormat(ua: string, url: string, code: int)
    ensures Parse(Format(ua, url, code), url) == Some((ua, code))
  {
    var body := Format(ua, url, code);
    var digits := Itoa(code);
    var head := Hello + ua + Tail(url);
    var line := body[..|body| - 1];
    assert line == head + digits;
    assert head == head[..|head| - 1] + [' '];
    assert ' ' !in digits;
    AfterLastSplit(head[..|head| - 1], ' ', digits);
    assert AfterLast(line, ' ') == digits;
    ParseIntItoa(code);
    assert line[..|line| - |digits|] == head;
    ParseHeadFramed(ua, url);
    assert ParseLine(line, url) == Some((ua, code));
  }

  /** Different user-agents or different upstream codes never share a greeting. */
  lemma FormatInjective(ua1: string, code1: int, ua2: string, code2: int, url: string)
    requires Format(ua1, url, code1) == Format(ua2, url, code2)
    ensures ua1 == ua2 && code1 == code2
  {
    ParseFormat(ua1, url, code1);
    ParseFormat(ua2, url, code2);
  }
}
