/** The HTTP server's request parser. */
module Http {
  import opened Outcomes
  import opened Texts
  import opened Tokens

  datatype Request = Request(method_: string, uri: string, target: string, query: string, protocol: string, host: string)

  // ----- Lines --------------------------------------------------------------------------------------------

  const CRLF := "\r\n"

  // A line break ends a line; at the very beginning of one it does not.
  predicate IsBreak(s: string, i: nat) {
    i > 0 && i + 1 < |s| && s[i] == '\r' && s[i + 1] == '\n'
  }

  // The ended lines, where the first `from` characters are not looked at: after each break the loop
  // steps over one character.
  function Lines(s: string, from: nat): seq<string>
    decreases |s|, |s| - from
  {
    if from >= |s| then []
    else if IsBreak(s, from) then [s[..from]] + Lines(s[from + 2..], 1)
    else Lines(s, from + 1)
  }

  method SplitLines(raw: string) returns (lines: seq<string>)
    ensures lines == Lines(raw, 0)
  {
    lines := [];
    var start := 0;
    var i := 0;
    assert raw[0..] == raw;
    while i < |raw|
      invariant start <= |raw| && start <= i
      invariant lines + Lines(raw[start..], i - start) == Lines(raw, 0)
      decreases |raw| - i
    {
      assert IsBreak(raw[start..], i - start) <==> raw[i] == '\r' && i + 1 < |raw| && raw[i + 1] == '\n' && start != i;
      if raw[i] == '\r' && i + 1 < |raw| && raw[i + 1] == '\n' && start != i {
        assert raw[start..][..i - start] == raw[start..i] && raw[start..][i - start + 2..] == raw[i + 2..];
        lines := lines + [raw[start..i]];
        i := i + 2;
        start := i;
      }
      i := i + 1;
    }
  }

  // ----- The request line ---------------------------------------------------------------------------------

  datatype Parts = Parts(method_: string, uri: string, protocol: string)

  // The second space is searched one character late, and without one only the method is set.
  function PartsOf(line: string): Parts {
    var first := FindFrom(line, ' ', 0);
    if first == |line| then Parts("", "", "")
    else
      var second := if first + 2 <= |line| then FindFrom(line, ' ', first + 2) else |line|;
      if second == |line| then Parts(line[..first], "", "")
      else Parts(line[..first], line[first + 1..second], line[second + 1..])
  }

  method ParseRequestLine(line: string) returns (p: Parts)
    ensures p == PartsOf(line)
  {
    p := Parts("", "", "");
    var start, count := 0, 0;
    var i := 0;
    while i < |line|
      invariant count == 0 || count == 1
      invariant count == 0 ==> start == 0 && i <= |line| && p == Parts("", "", "")
      invariant count == 0 ==> FindFrom(line, ' ', 0) == FindFrom(line, ' ', i)
      invariant count == 1 ==> 1 <= start <= |line| && start + 1 <= i
      invariant count == 1 ==> FindFrom(line, ' ', 0) == start - 1 && p == Parts(line[..start - 1], "", "")
      invariant count == 1 && start < |line| ==> i <= |line| && FindFrom(line, ' ', start + 1) == FindFrom(line, ' ', i)
    {
      if line[i] == ' ' {
        if count == 0 {
          p := p.(method_ := line[start..i]);
          i := i + 1;
          start := i;
          count := count + 1;
        } else {
          p := p.(uri := line[start..i], protocol := line[i + 1..]);
          break;
        }
      }
      i := i + 1;
    }
  }

  // ----- The whole request --------------------------------------------------------------------------------

  predicate NamesHost(line: string) {
    Take(line, 4) == "Host"
  }

  // The last line that begins with "Host" decides; its value begins at the seventh character.
  function HostAfter(lines: seq<string>, host: string): Result<string> {
    if lines == [] then Ok(host)
    else if !NamesHost(lines[0]) then HostAfter(lines[1..], host)
    else if |lines[0]| < 6 then Err(PositionOutOfRange)
    else HostAfter(lines[1..], lines[0][6..])
  }

  function WithoutHost(p: Parts): Request {
    var mark := WordLength(p.uri, '?');
    if mark == |p.uri| then Request(p.method_, p.uri, p.uri, "", p.protocol, "")
    else Request(p.method_, p.uri, p.uri[..mark], p.uri[mark + 1..], p.protocol, "")
  }

  function Parsed(raw: string): Result<Request>
    requires Lines(raw, 0) != []
  {
    var lines := Lines(raw, 0);
    var host := HostAfter(lines[1..], "");
    if host.Err? then Err(host.error) else Ok(WithoutHost(PartsOf(lines[0])).(host := host.value))
  }

  method ParseRequest(raw: string) returns (r: Result<Request>)
    requires Lines(raw, 0) != []
    ensures r == Parsed(raw)
  {
    var lines := SplitLines(raw);
    var p := ParseRequestLine(lines[0]);
    var mark := WordLength(p.uri, '?');
    var request := Request(p.method_, p.uri, p.uri, "", p.protocol, "");
    if mark < |p.uri| {
      request := request.(target := p.uri[..mark], query := p.uri[mark + 1..]);
    }
    ghost var parsed := request;
    for i := 1 to |lines|
      invariant request == parsed.(host := request.host)
      invariant HostAfter(lines[1..], "") == HostAfter(lines[i..], request.host)
    {
      assert lines[i..][0] == lines[i] && lines[i..][1..] == lines[i + 1..];
      if NamesHost(lines[i]) {
        if |lines[i]| < 6 {
          return Err(PositionOutOfRange);
        }
        request := request.(host := lines[i][6..]);
      }
    }
    assert lines[|lines|..] == [];
    r := Ok(request);
  }

  // ----- Rendering ----------------------------------------------------------------------------------------

  function Uri(target: string, query: Option<string>): string {
    match query
    case None => target
    case Some(q) => target + ['?'] + q
  }

  function RequestLine(method_: string, target: string, query: Option<string>, protocol: string): string {
    method_ + [' '] + Uri(target, query) + [' '] + protocol
  }

  function Ended(lines: seq<string>): string {
    if lines == [] then [] else lines[0] + CRLF + Ended(lines[1..])
  }

  // A non-empty line without carriage return.
  predicate Sendable(line: string) {
    line != [] && '\r' !in line
  }

  lemma {:induction false} LinesOfFirst(line: string, rest: string, from: nat)
    requires from <= |line| && '\r' !in line[from..] && line != []
    ensures Lines(line + CRLF + rest, from) == [line] + Lines(rest, 1)
    decreases |line| - from
  {
    var s := line + CRLF + rest;
    if from < |line| {
      assert s[from] == line[from..][0];
      assert forall c :: c in line[from + 1..] ==> c in line[from..];
      LinesOfFirst(line, rest, from + 1);
    } else {
      assert s[..from] == line && s[from + 2..] == rest;
    }
  }

  // The skipped characters do not matter when no line is empty.
  lemma {:induction false} LinesOfEnded(lines: seq<string>, rest: string, from: nat)
    requires (forall l :: l in lines ==> Sendable(l)) && lines != [] && from <= 1
    ensures Lines(Ended(lines) + rest, from) == lines + Lines(rest, 1)
    decreases |lines|
  {
    hide Lines;
    var l := lines[0];
    assert l in lines;
    var more := Ended(lines[1..]) + rest;
    assert Ended(lines) + rest == l + CRLF + more;
    assert forall c :: c in l[from..] ==> c in l;
    LinesOfFirst(l, more, from);
    if |lines| == 1 {
      assert more == rest;
    } else {
      assert forall u :: u in lines[1..] ==> u in lines;
      LinesOfEnded(lines[1..], rest, 1);
      assert [l] + (lines[1..] + Lines(rest, 1)) == lines + Lines(rest, 1);
    }
  }

  lemma RequestLineParts(method_: string, uri: string, protocol: string)
    requires ' ' !in method_ && ' ' !in uri && uri != []
    ensures PartsOf(method_ + [' '] + uri + [' '] + protocol) == Parts(method_, uri, protocol)
  {
    var line := method_ + [' '] + uri + [' '] + protocol;
    var first, second := |method_|, |method_| + 1 + |uri|;
    assert line[0..first] == method_;
    assert line[first + 1..second] == uri;
    assert forall c :: c in line[first + 2..second] ==> c in uri;
    FindFromIs(line, ' ', 0, first);
    FindFromIs(line, ' ', first + 2, second);
    assert line[second + 1..] == protocol;
  }

  lemma UriSplits(method_: string, target: string, query: Option<string>, protocol: string)
    requires '?' !in target
    ensures WithoutHost(Parts(method_, Uri(target, query), protocol)) ==
      Request(method_, Uri(target, query), target, if query.Some? then query.value else "", protocol, "")
  {
    if query.Some? {
      WordLengthBefore(target, query.value, '?');
    }
    WordLengthWhole(target, '?');
    assert Uri(target, query)[..|target|] == target;
  }

  lemma {:induction false} HostConcat(a: seq<string>, b: seq<string>, host: string)
    ensures HostAfter(a + b, host) ==
      if HostAfter(a, host).Err? then HostAfter(a, host) else HostAfter(b, HostAfter(a, host).value)
  {
    if a == [] {
      assert a + b == b;
    } else {
      assert (a + b)[1..] == a[1..] + b;
      HostConcat(a[1..], b, if NamesHost(a[0]) && |a[0]| >= 6 then a[0][6..] else host);
    }
  }

  lemma {:induction false} HostKept(lines: seq<string>, host: string)
    requires Hostless(lines)
    ensures HostAfter(lines, host) == Ok(host)
  {
    if lines != [] {
      assert lines[0] in lines;
      assert forall l :: l in lines[1..] ==> l in lines;
      HostKept(lines[1..], host);
    }
  }

  function HostHeader(host: string): string {
    "Host: " + host
  }

  // A request with one Host header among other headers, the empty line, and whatever follows it.
  function Rendered(line: string, before: seq<string>, host: string, after: seq<string>, body: string): string {
    Ended([line] + before + [HostHeader(host)] + after) + CRLF + body
  }

  // What the parser takes for lines behind the last header.
  function BodyLines(body: string): seq<string> {
    Lines(CRLF + body, 1)
  }

  predicate OtherHeaders(lines: seq<string>) {
    forall l :: l in lines ==> Sendable(l) && !NamesHost(l)
  }

  lemma HeadersName(before: seq<string>, host: string, after: seq<string>)
    requires OtherHeaders(before) && OtherHeaders(after)
    ensures HostAfter(before + [HostHeader(host)] + after, "") == Ok(host)
  {
    HostConcat(before, [HostHeader(host)] + after, "");
    HostKept(before, "");
    assert ([HostHeader(host)] + after)[1..] == after;
    assert HostHeader(host)[..4] == "Host" && HostHeader(host)[6..] == host;
    HostKept(after, host);
    assert before + ([HostHeader(host)] + after) == before + [HostHeader(host)] + after;
  }

  lemma RequestIsSendable(method_: string, target: string, query: Option<string>, protocol: string,
      before: seq<string>, host: string, after: seq<string>)
    requires '\r' !in RequestLine(method_, target, query, protocol) && '\r' !in host
    requires OtherHeaders(before) && OtherHeaders(after)
    ensures var all := [RequestLine(method_, target, query, protocol)] + before + [HostHeader(host)] + after;
      forall l :: l in all ==> Sendable(l)
  {
  }

  // For every body: everything is recovered, except that lines of the body can still replace the host.
  lemma RenderedIsParsed(method_: string, target: string, query: Option<string>, protocol: string,
      before: seq<string>, host: string, after: seq<string>, body: string)
    requires ' ' !in method_ && ' ' !in Uri(target, query) && Uri(target, query) != [] && '?' !in target
    requires '\r' !in RequestLine(method_, target, query, protocol) && '\r' !in host
    requires OtherHeaders(before) && OtherHeaders(after)
    ensures var raw := Rendered(RequestLine(method_, target, query, protocol), before, host, after, body);
      var late := HostAfter(BodyLines(body), host);
      && Lines(raw, 0) != []
      && Parsed(raw) == if late.Err? then Err(late.error) else Ok(Request(method_, Uri(target, query), target,
          if query.Some? then query.value else "", protocol, late.value))
  {
    hide Lines, HostAfter, PartsOf, WithoutHost, NamesHost, Sendable;
    RequestIsSendable(method_, target, query, protocol, before, host, after);
    var line := RequestLine(method_, target, query, protocol);
    var headers := before + [HostHeader(host)] + after;
    var all := [line] + before + [HostHeader(host)] + after;
    assert all == [line] + headers;
    LinesOfEnded(all, CRLF + body, 0);
    assert Rendered(line, before, host, after, body) == Ended(all) + (CRLF + body);
    var lines := all + BodyLines(body);
    assert lines[0] == line && lines[1..] == headers + BodyLines(body);
    RequestLineParts(method_, Uri(target, query), protocol);
    UriSplits(method_, target, query, protocol);
    HeadersName(before, host, after);
    HostConcat(headers, BodyLines(body), "");
  }

  // Line k is the last one that begins with "Host".
  predicate LastHost(lines: seq<string>, k: nat) {
    k < |lines| && NamesHost(lines[k]) && forall j :: k < j < |lines| ==> !NamesHost(lines[j])
  }

  // No line that begins with "Host" is too short to be read, and the last one, if any, names this host.
  ghost predicate Agrees(lines: seq<string>, host: string) {
    && (forall l :: l in lines && NamesHost(l) ==> |l| >= 6)
    && (forall k: nat :: LastHost(lines, k) ==> |lines[k]| >= 6 && lines[k][6..] == host)
  }

  ghost predicate Hostless(lines: seq<string>) {
    forall l :: l in lines ==> !NamesHost(l)
  }

  lemma LastHostTail(lines: seq<string>, k: nat)
    requires lines != []
    ensures LastHost(lines, k + 1) <==> LastHost(lines[1..], k)
    ensures LastHost(lines, 0) <==> NamesHost(lines[0]) && Hostless(lines[1..])
  {
    var rest := lines[1..];
    assert forall j :: 0 <= j < |rest| ==> rest[j] == lines[j + 1];
    if LastHost(rest, k) {
      assert forall j :: k + 1 < j < |lines| ==> lines[j] == rest[j - 1];
    }
    if Hostless(rest) {
      assert forall j :: 0 < j < |lines| ==> lines[j] == rest[j - 1] && lines[j] in rest;
    }
  }

  lemma AgreesTail(lines: seq<string>, host: string)
    requires lines != []
    ensures var first, rest := lines[0], lines[1..];
      Agrees(lines, host) <==>
        && Agrees(rest, host)
        && (NamesHost(first) ==> |first| >= 6)
        && (NamesHost(first) && Hostless(rest) ==> first[6..] == host)
  {
    var first, rest := lines[0], lines[1..];
    assert forall l :: l in lines <==> l == first || l in rest;
    LastHostTail(lines, 0);
    if Agrees(lines, host) {
      forall k: nat | LastHost(rest, k) ensures |rest[k]| >= 6 && rest[k][6..] == host {
        LastHostTail(lines, k);
        assert lines[k + 1] == rest[k];
      }
    }
    if Agrees(rest, host) && (NamesHost(first) ==> |first| >= 6) && (NamesHost(first) && Hostless(rest) ==> first[6..] == host) {
      forall k: nat | LastHost(lines, k) ensures |lines[k]| >= 6 && lines[k][6..] == host {
        if k > 0 {
          LastHostTail(lines, k - 1);
          assert lines[k] == rest[k - 1];
        }
      }
    }
  }

  lemma {:induction false} HostAfterIs(lines: seq<string>, before: string, host: string)
    ensures HostAfter(lines, before) == Ok(host) <==> Agrees(lines, host) && (Hostless(lines) ==> before == host)
  {
    if lines == [] {
      assert Agrees(lines, host);
    } else {
      hide Agrees;
      AgreesTail(lines, host);
      assert Hostless(lines) <==> !NamesHost(lines[0]) && Hostless(lines[1..]) by {
        assert forall l :: l in lines <==> l == lines[0] || l in lines[1..];
      }
      HostAfterIs(lines[1..], if NamesHost(lines[0]) && |lines[0]| >= 6 then lines[0][6..] else before, host);
    }
  }

  // Main result: the request is recovered if and only if what follows the empty line leaves the host
  // alone: no line of it that begins with "Host" is cut short, and the last one names the same host.
  lemma RequestRoundTrip(method_: string, target: string, query: Option<string>, protocol: string,
      before: seq<string>, host: string, after: seq<string>, body: string)
    requires ' ' !in method_ && ' ' !in Uri(target, query) && Uri(target, query) != [] && '?' !in target
    requires '\r' !in RequestLine(method_, target, query, protocol) && '\r' !in host
    requires OtherHeaders(before) && OtherHeaders(after)
    ensures var raw := Rendered(RequestLine(method_, target, query, protocol), before, host, after, body);
      && Lines(raw, 0) != []
      && (Parsed(raw) == Ok(Request(method_, Uri(target, query), target,
            if query.Some? then query.value else "", protocol, host))
          <==> Agrees(BodyLines(body), host))
  {
    RenderedIsParsed(method_, target, query, protocol, before, host, after, body);
    HostAfterIs(BodyLines(body), host, host);
  }

  // A body line can replace the host: the parser does not stop at the empty line.
  lemma BodyReplacesHost(first: string, other: string, host: string)
    requires Sendable(first) && '\r' !in other
    ensures HostAfter(BodyLines(first + CRLF + HostHeader(other) + CRLF), host) == Ok(other)
  {
    var top, header := CRLF + first, HostHeader(other);
    assert CRLF + (first + CRLF + header + CRLF) == top + CRLF + (header + CRLF + []);
    assert top[1..] == "\n" + first;
    LinesOfFirst(top, header + CRLF + [], 1);
    LinesOfFirst(header, [], 1);
    assert BodyLines(first + CRLF + header + CRLF) == [top] + ([header] + []);
    assert Take(top, 4)[0] == '\r' && "Host"[0] == 'H';
    assert header[..4] == "Host" && header[6..] == other;
    HostConcat([top], [header], host);
    assert [top][1..] == [] && [header][1..] == [];
    assert !NamesHost(top);
    assert HostAfter([top], host) == Ok(host);
  }
}
