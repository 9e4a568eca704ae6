/** SOCKS 4 and 4A requests: building and parsing. */
module Socks {
  import opened Addresses
  import opened Bytes
  import opened Numbers

  datatype Request = Request(version: nat, command: nat, port: nat, ip: string)

  // What the eight fixed bytes of a request say.
  function RequestOf(d: seq<byte>): Request
    requires |d| >= 8
  {
    Request(d[0] as nat, d[1] as nat, d[2] as nat * 256 + d[3] as nat, Dotted(d[4..8]))
  }

  method ParseRequest(data: array<byte>) returns (r: Request)
    requires data.Length >= 8
    ensures r == RequestOf(data[..])
  {
    var port := data[2] as nat * 256 + data[3] as nat;
    var ip := "";
    for i := 4 to 8
      invariant ip == Dots(data[4..i])
    {
      DotsConcat(data[4..i], [data[i]]);
      assert data[4..i + 1] == data[4..i] + [data[i]];
      assert [data[i]][1..] == [];
      ip := ip + ToString(data[i] as nat) + ['.'];
    }
    var d := data[4..8];
    DotsConcat(d[..3], [d[3]]);
    assert d == d[..3] + [d[3]] && [d[3]][1..] == [];
    assert d == data[..][4..8];
    ip := ip[..|ip|-1];
    r := Request(data[0] as nat, data[1] as nat, port, ip);
  }

  function LastOr(results: seq<seq<byte>>, otherwise: seq<byte>): seq<byte> {
    if results == [] then otherwise else results[|results|-1]
  }

  lemma LastOrIs(results: seq<seq<byte>>, otherwise: seq<byte>)
    ensures LastOr(results, otherwise) == if results == [] then otherwise else results[|results|-1]
  {
  }

  // The console's CONNECT request for the last address that the resolver gave.
  function ConnectRequest(port: nat, ip: seq<byte>): seq<byte> {
    [4, 1, (port / 256 % 256) as byte, (port % 256) as byte] + ip + [0]
  }

  method CopyAddress(request: array<byte>, ip: seq<byte>)
    requires request.Length == 9 && |ip| == 4
    modifies request
    ensures request[..4] == old(request[..4]) && request[4..8] == ip && request[8] == old(request[8])
  {
    for i := 0 to 4
      invariant request[..4] == old(request[..4]) && request[8] == old(request[8])
      invariant request[4..4 + i] == ip[..i]
    {
      request[4 + i] := ip[i];
    }
  }

  // The loop over the resolver's answers: the last one stays.
  method FillAddress(request: array<byte>, results: seq<seq<byte>>)
    requires request.Length == 9 && forall ip :: ip in results ==> |ip| == 4
    modifies request
    ensures request[..4] == old(request[..4]) && request[8] == old(request[8])
    ensures request[4..8] == LastOr(results, old(request[4..8]))
  {
    hide LastOr;
    ghost var first := request[4..8];
    LastOrIs([], first);
    for k := 0 to |results|
      invariant request[..4] == old(request[..4]) && request[8] == old(request[8])
      invariant request[4..8] == LastOr(results[..k], first)
    {
      assert results[k] in results;
      CopyAddress(request, results[k]);
      assert results[..k + 1] == results[..k] + [results[k]];
      LastOrIs(results[..k + 1], first);
    }
    assert results[..|results|] == results;
  }

  method BuildRequest(port: nat, results: seq<seq<byte>>) returns (request: array<byte>)
    requires forall ip :: ip in results ==> |ip| == 4
    ensures fresh(request) && request[..] == ConnectRequest(port, LastOr(results, [0, 0, 0, 0]))
  {
    hide LastOr;
    request := new byte[9](i => 0);
    request[0] := 4;
    request[1] := 1;
    request[2] := (port / 256 % 256) as byte;
    request[3] := (port % 256) as byte;
    ghost var head := request[..4];
    assert head == [4, 1, (port / 256 % 256) as byte, (port % 256) as byte];
    assert request[4..8] == [0, 0, 0, 0];
    FillAddress(request, results);
    assert request[8..] == [0];
    assert request[..] == request[..4] + request[4..8] + request[8..];
  }

  // The fields of a request, byte by byte: the port comes high byte first.
  lemma RequestFormat(d: seq<byte>)
    requires |d| >= 8
    ensures var r := RequestOf(d);
      && r.version == d[0] as nat && r.command == d[1] as nat
      && r.port / 256 == d[2] as nat && r.port % 256 == d[3] as nat
      && r.ip == Dotted([d[4], d[5], d[6], d[7]])
  {
    assert d[4..8] == [d[4], d[5], d[6], d[7]];
  }

  // Main result: parsing what the console builds recovers the version, the command, any port below
  // 65536 and the dotted address, and the dotted address determines the four octets.
  lemma RequestRoundTrip(port: nat, ip: seq<byte>)
    requires port < 65536 && |ip| == 4
    ensures RequestOf(ConnectRequest(port, ip)) == Request(4, 1, port, Dotted(ip))
    ensures |ConnectRequest(port, ip)| == 9 && ConnectRequest(port, ip)[8] == 0
  {
    assert ConnectRequest(port, ip)[4..8] == ip;
  }

  // ----- The 4A extension ---------------------------------------------------------------------------------

  // The address is of the form that announces a host name. The code tests the text, not the octets.
  predicate AnnouncesHost(ip: string) {
    "0.0.0." <= ip
  }

  lemma AnnouncesHostIff(ip: seq<byte>)
    requires |ip| == 4
    ensures AnnouncesHost(Dotted(ip)) <==> ip[..3] == [0, 0, 0]
  {
    var zeros: seq<byte> := [0, 0, 0];
    assert ToString(0) == "0";
    assert zeros[1..] == [0, 0] && [0 as byte, 0][1..] == [0] && [0 as byte][1..] == [];
    assert Dots([0]) == "0.";
    assert Dots([0, 0]) == "0.0.";
    assert Dots(zeros) == "0.0.0.";
    DotsPrefix(zeros, ip[..3], ip[3] as nat);
  }

  // The first zero byte at or after `from` and before `stop`.
  function ZeroFrom(d: seq<byte>, from: nat, stop: nat): (i: nat)
    requires stop <= |d|
    ensures from <= i && (i < stop ==> d[i] == 0) && (from <= stop ==> i <= stop)
    ensures forall k :: from <= k < i && k < stop ==> d[k] != 0
    decreases |d| - from
  {
    if from >= stop || d[from] == 0 then from else ZeroFrom(d, from + 1, stop)
  }

  // The text between the first and the second zero byte after the fixed part.
  function HostOf(d: seq<byte>, length: nat): seq<byte>
    requires length <= |d|
  {
    var start := ZeroFrom(d, 8, length) + 1;
    if start >= length then [] else d[start..ZeroFrom(d, start, length)]
  }

  method ScanHost(data: array<byte>, length: nat) returns (host: seq<byte>)
    requires length <= data.Length
    ensures host == HostOf(data[..], length)
  {
    host := [];
    var i := 8;
    while i < length
      invariant ZeroFrom(data[..], 8, length) == ZeroFrom(data[..], i, length)
      decreases length - i
    {
      if data[i] == 0 {
        break;
      }
      i := i + 1;
    }
    i := i + 1;
    ghost var start := i;
    while i < length
      invariant start <= i && (start < length ==> i <= length)
      invariant start < length ==> ZeroFrom(data[..], start, length) == ZeroFrom(data[..], i, length)
      invariant host == if start < length then data[start..i] else []
      decreases length - i
    {
      if data[i] == 0 {
        break;
      }
      host := host + [data[i]];
      i := i + 1;
    }
  }

  // What a request means once the resolver has answered for the host, if one was announced:
  // the last answer wins, and without an answer the address stays.
  function Resolved(r: Request, host: seq<byte>, resolve: seq<byte> -> seq<string>): Request {
    var answers := resolve(host);
    if AnnouncesHost(r.ip) && answers != [] then r.(ip := answers[|answers|-1]) else r
  }

  method DoParse(data: array<byte>, length: nat, resolve: seq<byte> -> seq<string>) returns (r: Request)
    requires 8 <= data.Length && length <= data.Length
    ensures r == Resolved(RequestOf(data[..]), HostOf(data[..], length), resolve)
  {
    r := ParseRequest(data);
    if AnnouncesHost(r.ip) {
      var host := ScanHost(data, length);
      ghost var parsed := r;
      var answers := resolve(host);
      for k := 0 to |answers|
        invariant r == if k == 0 then parsed else parsed.(ip := answers[k-1])
      {
        r := r.(ip := answers[k]);
      }
    }
  }

  lemma {:induction false} ZeroFromIs(d: seq<byte>, from: nat, stop: nat, zero: nat)
    requires from <= zero < stop <= |d| && d[zero] == 0
    requires forall k :: from <= k < zero ==> d[k] != 0
    ensures ZeroFrom(d, from, stop) == zero
    decreases zero - from
  {
    if from < zero {
      ZeroFromIs(d, from + 1, stop, zero);
    }
  }

  function HostRequest(command: byte, port: nat, last: byte, user: seq<byte>, host: seq<byte>): seq<byte> {
    [4, command, (port / 256 % 256) as byte, (port % 256) as byte, 0, 0, 0, last] + user + [0] + host + [0]
  }

  // Main result: whatever older bytes lie in the buffer behind the packet, the host that is looked up
  // is exactly the one in the packet, and the other fields are recovered.
  lemma HostRoundTrip(command: byte, port: nat, last: byte, user: seq<byte>, host: seq<byte>, stale: seq<byte>)
    requires port < 65536 && 0 !in user && 0 !in host
    ensures var packet := HostRequest(command, port, last, user, host);
      && RequestOf(packet + stale) == Request(4, command as nat, port, Dotted([0, 0, 0, last]))
      && AnnouncesHost(RequestOf(packet + stale).ip)
      && HostOf(packet + stale, |packet|) == host
  {
    var packet := HostRequest(command, port, last, user, host);
    var d := packet + stale;
    var first, second := 8 + |user|, 9 + |user| + |host|;
    assert d[4..8] == [0, 0, 0, last];
    AnnouncesHostIff(d[4..8]);
    assert forall k :: 8 <= k < first ==> d[k] == user[k - 8];
    assert forall k :: first < k < second ==> d[k] == host[k - first - 1];
    ZeroFromIs(d, 8, |packet|, first);
    ZeroFromIs(d, first + 1, |packet|, second);
    assert d[first + 1..second] == host;
  }

  // Main result: a packet that announces a host is for the last address that the resolver gives for
  // exactly that host, or, without one, for the address in the packet.
  lemma HostIsResolved(command: byte, port: nat, last: byte, user: seq<byte>, host: seq<byte>, stale: seq<byte>,
                       resolve: seq<byte> -> seq<string>)
    requires port < 65536 && 0 !in user && 0 !in host
    ensures var packet := HostRequest(command, port, last, user, host);
      Resolved(RequestOf(packet + stale), HostOf(packet + stale, |packet|), resolve) ==
        Request(4, command as nat, port,
                if resolve(host) == [] then Dotted([0, 0, 0, last]) else resolve(host)[|resolve(host)|-1])
  {
    HostRoundTrip(command, port, last, user, host, stale);
  }

  // A packet for any other address is for that address, whatever the resolver would say.
  lemma AddressStays(d: seq<byte>, host: seq<byte>, resolve: seq<byte> -> seq<string>)
    requires |d| >= 8 && d[4..7] != [0, 0, 0]
    ensures Resolved(RequestOf(d), host, resolve) == RequestOf(d)
  {
    assert d[4..8][..3] == d[4..7];
    AnnouncesHostIff(d[4..8]);
  }
}
