/** The SOCKS 4 session: one request, one or two replies, then data in both directions. Every
    completion handler is one step; a run is any order of completions. */
module Relay {
  import opened Bytes

  // The size of each of the two relay buffers.
  const MAX_LENGTH := 16000

  // What one direction is doing: not started, waiting for data, writing buffer[pos..length], or
  // ended by an error.
  datatype Op = Idle | Reading | Writing(pos: nat, length: nat) | Stopped

  // One direction: everything read from its source, everything written to its sink, its buffer.
  datatype Pump = Pump(read: seq<byte>, written: seq<byte>, buffer: seq<byte>, op: Op)

  // CONNECT and BIND wait for their connection; then the relay runs.
  datatype Phase = Waiting | Connecting | Binding | Relaying(joined: bool) | Closed

  datatype Reply = Reply(granted: bool, port: nat, ip: seq<byte>)

  datatype Session = Session(phase: Phase, replies: seq<Reply>, toClient: seq<byte>, down: Pump, up: Pump)

  // `Request` carries what parsing and the rules decided: the command code, whether it is permitted,
  // and the acceptor's port and local address.
  datatype Action =
    | Request(command: nat, permit: bool, port: nat, ip: seq<byte>)
    | Connected | ConnectFailed
    | Accepted(expected: bool) | AcceptFailed
    | DownData(chunk: seq<byte>) | DownReadFailed | DownWrote(n: nat) | DownWriteFailed
    | UpData(chunk: seq<byte>) | UpReadFailed | UpWrote(n: nat) | UpWriteFailed

  // The first byte of a reply is zero, the second 90 or 91; only the reply to BIND fills the rest.
  function ReplyBytes(r: Reply): (bytes: seq<byte>)
    ensures |bytes| == 8
  {
    [0, if r.granted then 90 else 91, (r.port / 256 % 256) as byte, (r.port % 256) as byte]
    + (if |r.ip| == 4 then r.ip else [0, 0, 0, 0])
  }

  // What a client reads in a reply: whether it is granted, the port and the address.
  lemma ReplyReadsBack(r: Reply)
    requires r.port < 65536 && (r.ip == [] || |r.ip| == 4)
    ensures var b := ReplyBytes(r);
      && b[0] == 0 && (b[1] == 90 <==> r.granted) && (b[1] == 91 <==> !r.granted)
      && 256 * (b[2] as nat) + b[3] as nat == r.port
      && b[4..] == if r.ip == [] then [0, 0, 0, 0] else r.ip
  {
  }

  function AllReplies(rs: seq<Reply>): seq<byte> {
    if rs == [] then [] else AllReplies(rs[..|rs|-1]) + ReplyBytes(rs[|rs|-1])
  }

  ghost predicate Empty(p: Pump) {
    p.read == [] && p.written == [] && p.op == Idle && |p.buffer| == MAX_LENGTH
  }

  ghost predicate Initial(s: Session) {
    s.phase == Waiting && s.replies == [] && s.toClient == [] && Empty(s.down) && Empty(s.up)
  }

  // ----- One direction -----------------------------------------------------------------------------------

  // A completed read has put its chunk at the front of the buffer; writing it out starts at once.
  function Receive(p: Pump, chunk: seq<byte>): Pump {
    Pump(p.read + chunk, p.written,
         if |chunk| <= |p.buffer| then chunk + p.buffer[|chunk|..] else p.buffer,
         Writing(0, |chunk|))
  }

  predicate CanWrite(p: Pump, n: nat) {
    p.op.Writing? && 0 < n && p.op.pos + n <= p.op.length <= |p.buffer|
  }

  // The next n bytes leave the buffer; after the last one the next read starts.
  function Write(p: Pump, n: nat): Pump
    requires CanWrite(p, n)
  {
    p.(written := p.written + p.buffer[p.op.pos..p.op.pos + n],
       op := if p.op.pos + n == p.op.length then Reading else Writing(p.op.pos + n, p.op.length))
  }

  // ----- The session -------------------------------------------------------------------------------------

  predicate Enabled(s: Session, a: Action) {
    match a
    case Request(command, permit, port, ip) => s.phase == Waiting && (permit ==> command == 1 || command == 2) && |ip| == 4
    case Connected => s.phase == Connecting
    case ConnectFailed => s.phase == Connecting
    case Accepted(_) => s.phase == Binding
    case AcceptFailed => s.phase == Binding
    case DownData(chunk) => s.phase == Relaying(true) && s.down.op == Reading && 0 < |chunk| <= MAX_LENGTH
    case DownReadFailed => s.down.op == Reading
    case DownWrote(n) => CanWrite(s.down, n)
    case DownWriteFailed => s.down.op.Writing?
    case UpData(chunk) => s.phase.Relaying? && s.up.op == Reading && 0 < |chunk| <= MAX_LENGTH
    case UpReadFailed => s.up.op == Reading
    case UpWrote(n) => s.phase == Relaying(true) && CanWrite(s.up, n)
    case UpWriteFailed => s.up.op.Writing?
  }

  function SendReply(s: Session, r: Reply): Session {
    s.(replies := s.replies + [r], toClient := s.toClient + ReplyBytes(r))
  }

  function StartRelay(s: Session, joined: bool): Session {
    s.(phase := Relaying(joined), down := s.down.(op := Reading), up := s.up.(op := Reading))
  }

  function Apply(s: Session, a: Action): Session {
    match a
    case Request(command, permit, port, ip) =>
      var t := s.(phase := if !permit then Closed else if command == 1 then Connecting else Binding);
      SendReply(t, if command == 2 then Reply(permit, port, ip) else Reply(permit, 0, []))
    case Connected => StartRelay(s, true)
    case ConnectFailed => s.(phase := Closed)
    case Accepted(expected) => StartRelay(SendReply(s, Reply(expected, 0, [])), expected)
    case AcceptFailed => s.(phase := Closed)
    case DownData(chunk) => s.(down := Receive(s.down, chunk))
    case DownReadFailed => s.(down := s.down.(op := Stopped))
    case DownWrote(n) =>
      if CanWrite(s.down, n) then s.(down := Write(s.down, n), toClient := s.toClient + s.down.buffer[s.down.op.pos..s.down.op.pos + n])
      else s
    case DownWriteFailed => s.(down := s.down.(op := Stopped))
    case UpData(chunk) => s.(up := Receive(s.up, chunk))
    case UpReadFailed => s.(up := s.up.(op := Stopped))
    case UpWrote(n) => if CanWrite(s.up, n) then s.(up := Write(s.up, n)) else s
    case UpWriteFailed => s.(up := s.up.(op := Stopped))
  }

  function Run(s: Session, run: seq<Action>): Session {
    if run == [] then s else Apply(Run(s, run[..|run|-1]), run[|run|-1])
  }

  predicate Possible(s: Session, run: seq<Action>) {
    run != [] ==> Possible(s, run[..|run|-1]) && Enabled(Run(s, run[..|run|-1]), run[|run|-1])
  }

  // ----- What every run keeps ------------------------------------------------------------------------------

  // The unwritten part of what was read is exactly the part of the buffer still being written.
  ghost predicate PumpSafe(p: Pump) {
    && |p.buffer| == MAX_LENGTH
    && match p.op
       case Idle => p.read == [] && p.written == []
       case Reading => p.written == p.read
       case Writing(pos, length) => pos < length <= MAX_LENGTH && p.read == p.written + p.buffer[pos..length]
       case Stopped => p.written <= p.read && |p.read| - |p.written| <= MAX_LENGTH
  }

  ghost predicate Safe(s: Session) {
    && PumpSafe(s.down) && PumpSafe(s.up)
    && s.toClient == AllReplies(s.replies) + s.down.written
    && match s.phase
       case Waiting => s.replies == [] && s.down.op == Idle && s.up.op == Idle
       case Connecting => |s.replies| == 1 && s.replies[0].granted && s.down.op == Idle && s.up.op == Idle
       case Binding => |s.replies| == 1 && s.replies[0].granted && s.down.op == Idle && s.up.op == Idle
       case Relaying(joined) =>
         && 1 <= |s.replies| <= 2 && s.replies[0].granted
         && (|s.replies| == 2 ==> s.replies[1].granted == joined)
         && (|s.replies| == 1 ==> joined)
         && (!joined ==> s.down.read == [] && s.up.written == [])
       case Closed => |s.replies| == 1 && s.down.op == Idle && s.up.op == Idle
  }

  lemma ReceiveSafe(p: Pump, chunk: seq<byte>)
    requires PumpSafe(p) && p.op == Reading && 0 < |chunk| <= MAX_LENGTH
    ensures PumpSafe(Receive(p, chunk))
  {
    assert Receive(p, chunk).buffer[0..|chunk|] == chunk;
  }

  lemma WriteSafe(p: Pump, n: nat)
    requires PumpSafe(p) && CanWrite(p, n)
    ensures PumpSafe(Write(p, n))
    ensures Write(p, n).written == p.written + p.buffer[p.op.pos..p.op.pos + n]
  {
    var pos, length := p.op.pos, p.op.length;
    assert p.buffer[pos..length] == p.buffer[pos..pos + n] + p.buffer[pos + n..length];
    if pos + n == length {
      assert p.buffer[pos + n..length] == [];
    }
  }

  lemma StopSafe(p: Pump)
    requires PumpSafe(p) && (p.op.Reading? || p.op.Writing?)
    ensures PumpSafe(p.(op := Stopped))
  {
  }

  lemma OneMoreReply(rs: seq<Reply>, r: Reply)
    ensures AllReplies(rs + [r]) == AllReplies(rs) + ReplyBytes(r)
  {
    assert (rs + [r])[..|rs|] == rs;
  }

  lemma ReplySafe(s: Session, r: Reply)
    requires s.toClient == AllReplies(s.replies) + s.down.written && s.down.written == []
    ensures var t := SendReply(s, r); t.toClient == AllReplies(t.replies) + t.down.written
  {
    OneMoreReply(s.replies, r);
    assert s.toClient == AllReplies(s.replies);
  }

  // The actions of the two directions; the rest set the session up.
  predicate IsDown(a: Action) {
    a.DownData? || a.DownReadFailed? || a.DownWrote? || a.DownWriteFailed?
  }

  predicate IsUp(a: Action) {
    a.UpData? || a.UpReadFailed? || a.UpWrote? || a.UpWriteFailed?
  }

  lemma RequestSafe(s: Session, a: Action)
    requires Safe(s) && Enabled(s, a) && a.Request?
    ensures Safe(Apply(s, a))
  {
    hide PumpSafe, AllReplies, ReplyBytes;
    IdleIsSilent(s.down);
    ReplySafe(s, if a.command == 2 then Reply(a.permit, a.port, a.ip) else Reply(a.permit, 0, []));
  }

  lemma ConnectedSafe(s: Session, a: Action)
    requires Safe(s) && Enabled(s, a) && (a.Connected? || a.ConnectFailed? || a.AcceptFailed?)
    ensures Safe(Apply(s, a))
  {
    hide AllReplies;
  }

  lemma AcceptedSafe(s: Session, a: Action)
    requires Safe(s) && Enabled(s, a) && a.Accepted?
    ensures Safe(Apply(s, a))
  {
    hide AllReplies, ReplyBytes;
    ReplySafe(s, Reply(a.expected, 0, []));
  }

  lemma IdleIsSilent(p: Pump)
    requires PumpSafe(p) && p.op == Idle
    ensures p.read == [] && p.written == []
  {
  }

  // Only the pump, its bytes to the client and nothing else of the session change.
  lemma DownSafe(s: Session, a: Action)
    requires Safe(s) && Enabled(s, a) && IsDown(a)
    ensures Safe(Apply(s, a))
  {
    DownPumpSafe(s, a);
    hide PumpSafe, AllReplies, Receive, Write;
    if a.DownWrote? {
      var next := s.down.buffer[s.down.op.pos..s.down.op.pos + a.n];
      assert AllReplies(s.replies) + s.down.written + next == AllReplies(s.replies) + (s.down.written + next);
    }
  }

  lemma DownPumpSafe(s: Session, a: Action)
    requires Safe(s) && Enabled(s, a) && IsDown(a)
    ensures var p, q := s.down, Apply(s, a).down;
      && PumpSafe(q) && p.op != Idle && q.op != Idle
      && (a.DownWrote? ==> CanWrite(p, a.n) && q.written == p.written + p.buffer[p.op.pos..p.op.pos + a.n])
      && (!a.DownWrote? ==> q.written == p.written)
      && (!a.DownData? ==> q.read == p.read)
  {
    hide AllReplies;
    match a {
      case DownData(chunk) => ReceiveSafe(s.down, chunk);
      case DownReadFailed => StopSafe(s.down);
      case DownWrote(n) => WriteSafe(s.down, n);
      case DownWriteFailed => StopSafe(s.down);
    }
  }

  lemma UpPumpSafe(s: Session, a: Action)
    requires Safe(s) && Enabled(s, a) && IsUp(a)
    ensures var p, q := s.up, Apply(s, a).up;
      && PumpSafe(q) && p.op != Idle && q.op != Idle && (!a.UpWrote? ==> q.written == p.written)
  {
    hide AllReplies;
    match a {
      case UpData(chunk) => ReceiveSafe(s.up, chunk);
      case UpReadFailed => StopSafe(s.up);
      case UpWrote(n) => WriteSafe(s.up, n);
      case UpWriteFailed => StopSafe(s.up);
    }
  }

  lemma UpSafe(s: Session, a: Action)
    requires Safe(s) && Enabled(s, a) && IsUp(a)
    ensures Safe(Apply(s, a))
  {
    UpPumpSafe(s, a);
    hide PumpSafe, AllReplies, Receive, Write;
  }

  lemma ApplySafe(s: Session, a: Action)
    requires Safe(s) && Enabled(s, a)
    ensures Safe(Apply(s, a))
  {
    hide Safe, Enabled, Apply;
    if a.Request? {
      RequestSafe(s, a);
    } else if IsDown(a) {
      DownSafe(s, a);
    } else if IsUp(a) {
      UpSafe(s, a);
    } else if a.Accepted? {
      AcceptedSafe(s, a);
    } else {
      ConnectedSafe(s, a);
    }
  }

  lemma {:induction false} RunKeepsSafe(s: Session, run: seq<Action>)
    requires Safe(s) && Possible(s, run)
    ensures Safe(Run(s, run))
  {
    if run != [] {
      RunKeepsSafe(s, run[..|run|-1]);
      ApplySafe(Run(s, run[..|run|-1]), run[|run|-1]);
    }
  }

  // Main result, the data: in every run and in each direction what was written is a prefix of what was
  // read, at most one buffer behind, and the client's stream is the replies followed by that prefix.
  lemma RelayIsPrefix(s: Session, run: seq<Action>)
    requires Initial(s) && Possible(s, run)
    ensures var t := Run(s, run);
      && t.down.written <= t.down.read && |t.down.read| - |t.down.written| <= MAX_LENGTH
      && t.up.written <= t.up.read && |t.up.read| - |t.up.written| <= MAX_LENGTH
      && t.toClient == AllReplies(t.replies) + t.down.written
  {
    RunKeepsSafe(s, run);
  }

  // Everything that came in, in order: from the server, and from the client.
  function FromServer(run: seq<Action>): seq<byte> {
    if run == [] then []
    else FromServer(run[..|run|-1]) + if run[|run|-1].DownData? then run[|run|-1].chunk else []
  }

  function FromClient(run: seq<Action>): seq<byte> {
    if run == [] then []
    else FromClient(run[..|run|-1]) + if run[|run|-1].UpData? then run[|run|-1].chunk else []
  }

  lemma ReadStep(s: Session, a: Action)
    requires Safe(s) && Enabled(s, a)
    ensures Apply(s, a).down.read == s.down.read + if a.DownData? then a.chunk else []
    ensures Apply(s, a).up.read == s.up.read + if a.UpData? then a.chunk else []
  {
  }

  // Main result, the data end to end: what was read is what came in, in order; the client has got the
  // replies and then a prefix of all that came from the server, the server a prefix of all that came
  // from the client, and while a direction waits for more, all of it.
  lemma {:induction false} NothingIsLost(s: Session, run: seq<Action>)
    requires Initial(s) && Possible(s, run)
    ensures var t := Run(s, run);
      && t.down.read == FromServer(run) && t.up.read == FromClient(run)
      && t.down.written <= FromServer(run) && t.up.written <= FromClient(run)
      && t.toClient == AllReplies(t.replies) + t.down.written
      && (t.down.op == Reading ==> t.down.written == FromServer(run))
      && (t.up.op == Reading ==> t.up.written == FromClient(run))
  {
    RelayIsPrefix(s, run);
    RunKeepsSafe(s, run);
    if run != [] {
      NothingIsLost(s, run[..|run|-1]);
      RunKeepsSafe(s, run[..|run|-1]);
      ReadStep(Run(s, run[..|run|-1]), run[|run|-1]);
    }
  }

  // The relay never gets stuck: while it writes, it can write what is left, in any portions, and once
  // that is done it takes any chunk that fits.
  lemma CanGoOn(s: Session)
    requires Safe(s) && s.phase == Relaying(true)
    ensures s.down.op.Writing? ==> forall n :: 0 < n <= s.down.op.length - s.down.op.pos ==> Enabled(s, DownWrote(n))
    ensures s.up.op.Writing? ==> forall n :: 0 < n <= s.up.op.length - s.up.op.pos ==> Enabled(s, UpWrote(n))
    ensures s.down.op.Writing? ==>
      var t := Apply(s, DownWrote(s.down.op.length - s.down.op.pos)); t.down.op == Reading && t.down.written == s.down.read
    ensures s.up.op.Writing? ==>
      var t := Apply(s, UpWrote(s.up.op.length - s.up.op.pos)); t.up.op == Reading && t.up.written == s.up.read
    ensures s.down.op == Reading ==> forall chunk :: 1 <= |chunk| <= MAX_LENGTH ==> Enabled(s, DownData(chunk))
    ensures s.up.op == Reading ==> forall chunk :: 1 <= |chunk| <= MAX_LENGTH ==> Enabled(s, UpData(chunk))
  {
    if s.down.op.Writing? { WriteSafe(s.down, s.down.op.length - s.down.op.pos); }
    if s.up.op.Writing? { WriteSafe(s.up, s.up.op.length - s.up.op.pos); }
  }

  // The request of a run, if it has been read.
  function TheRequest(run: seq<Action>): (k: int)
    ensures -1 <= k < |run|
    ensures k >= 0 ==> run[k].Request?
  {
    if run == [] then -1
    else if run[|run|-1].Request? then |run| - 1
    else TheRequest(run[..|run|-1])
  }

  ghost predicate RepliesMatch(s: Session, request: Action, accepted: bool)
    requires request.Request?
  {
    if !request.permit then
      s.phase == Closed && s.toClient == ReplyBytes(if request.command == 2 then Reply(false, request.port, request.ip) else Reply(false, 0, []))
    else if request.command == 1 then
      s.replies == [Reply(true, 0, [])] && !accepted && !s.phase.Binding?
    else if accepted then
      && |s.replies| == 2 && s.replies[0] == Reply(true, request.port, request.ip)
      && s.phase.Relaying? && s.replies[1] == Reply(s.phase.joined, 0, [])
    else
      s.replies == [Reply(true, request.port, request.ip)] && !s.phase.Connecting? && !s.phase.Relaying?
  }

  ghost predicate HasAccepted(run: seq<Action>) {
    exists k :: 0 <= k < |run| && run[k].Accepted?
  }

  lemma InitialIsSafe(s: Session)
    requires Initial(s)
    ensures Safe(s) && s.phase == Waiting && s.toClient == [] && !HasAccepted([])
  {
  }

  // Only a request is possible at first, and later none is.
  lemma WaitingAsks(s: Session, a: Action)
    requires Safe(s) && Enabled(s, a)
    ensures a.Request? <==> s.phase == Waiting
  {
  }

  lemma RefusedIsSilent(s: Session)
    requires Safe(s) && s.phase == Relaying(false)
    ensures s.down.read == [] && s.toClient == AllReplies(s.replies)
  {
  }

  // Main result, the replies: a rejected request gets one reply 91 and nothing else ever; CONNECT gets
  // one reply and then data; BIND gets one reply, a second one when the connection is accepted, and
  // data only if that connection came from the expected address.
  lemma {:induction false} RepliesAreRight(s: Session, run: seq<Action>)
    requires Initial(s) && Possible(s, run)
    ensures TheRequest(run) < 0 ==> Run(s, run).phase == Waiting && Run(s, run).toClient == [] && !HasAccepted(run)
    ensures TheRequest(run) >= 0 ==> Run(s, run).phase != Waiting && RepliesMatch(Run(s, run), run[TheRequest(run)], HasAccepted(run))
    ensures Run(s, run).phase == Relaying(false) ==> Run(s, run).down.read == [] && Run(s, run).toClient == AllReplies(Run(s, run).replies)
  {
    hide Safe, Enabled, Apply, RepliesMatch, HasAccepted;
    InitialIsSafe(s);
    RunKeepsSafe(s, run);
    if Run(s, run).phase == Relaying(false) { RefusedIsSilent(Run(s, run)); }
    if run != [] {
      var n := |run| - 1;
      RepliesAreRight(s, run[..n]);
      RunKeepsSafe(s, run[..n]);
      WaitingAsks(Run(s, run[..n]), run[n]);
      AcceptedSnoc(run);
      RepliesStep(Run(s, run[..n]), run[n], if TheRequest(run[..n]) >= 0 then run[TheRequest(run[..n])] else run[n], HasAccepted(run[..n]));
    }
  }

  lemma AcceptedSnoc(run: seq<Action>)
    requires run != []
    ensures HasAccepted(run) <==> run[|run|-1].Accepted? || HasAccepted(run[..|run|-1])
  {
    var n := |run| - 1;
    if HasAccepted(run[..n]) {
      var k :| 0 <= k < n && run[..n][k].Accepted?;
      assert run[k].Accepted?;
    }
    if HasAccepted(run) && !run[n].Accepted? {
      var k :| 0 <= k < |run| && run[k].Accepted?;
      assert run[..n][k].Accepted?;
    }
  }

  lemma RepliesStep(s: Session, a: Action, request: Action, accepted: bool)
    requires Safe(s) && Enabled(s, a)
    requires a.Request? ==> s.phase == Waiting && s.toClient == [] && !accepted
    requires !a.Request? && s.phase != Waiting ==> request.Request? && RepliesMatch(s, request, accepted)
    requires s.phase == Waiting ==> a.Request?
    ensures a.Request? ==> RepliesMatch(Apply(s, a), a, false)
    ensures !a.Request? ==> RepliesMatch(Apply(s, a), request, accepted || a.Accepted?)
    ensures Apply(s, a).phase != Waiting
  {
    hide Safe, Enabled, Apply, RepliesMatch;
    if a.Request? {
      FirstReply(s, a);
    } else if IsDown(a) || IsUp(a) {
      DataKeepsReplies(s, a, request, accepted);
    } else {
      SecondReply(s, a, request, accepted);
    }
  }

  lemma FirstReply(s: Session, a: Action)
    requires Safe(s) && Enabled(s, a) && a.Request? && s.phase == Waiting && s.toClient == []
    ensures RepliesMatch(Apply(s, a), a, false) && Apply(s, a).phase != Waiting
  {
    hide PumpSafe, AllReplies, ReplyBytes;
    var r := if a.command == 2 then Reply(a.permit, a.port, a.ip) else Reply(a.permit, 0, []);
    assert [] + ReplyBytes(r) == ReplyBytes(r);
    assert s.replies == [] && [] + [r] == [r];
  }

  lemma SecondReply(s: Session, a: Action, request: Action, accepted: bool)
    requires Safe(s) && Enabled(s, a) && !a.Request? && !IsDown(a) && !IsUp(a)
    requires request.Request? && RepliesMatch(s, request, accepted)
    ensures RepliesMatch(Apply(s, a), request, accepted || a.Accepted?) && Apply(s, a).phase != Waiting
  {
    hide PumpSafe, AllReplies, ReplyBytes;
  }

  // Data changes neither phase nor replies; after a rejection there is none.
  lemma DataKeepsReplies(s: Session, a: Action, request: Action, accepted: bool)
    requires Safe(s) && Enabled(s, a) && (IsDown(a) || IsUp(a))
    requires request.Request? && RepliesMatch(s, request, accepted)
    ensures RepliesMatch(Apply(s, a), request, accepted) && Apply(s, a).phase != Waiting
  {
    DataFlows(s, a);
    hide Safe, Enabled, Apply, AllReplies, ReplyBytes;
  }

  lemma DataFlows(s: Session, a: Action)
    requires Safe(s) && Enabled(s, a) && (IsDown(a) || IsUp(a))
    ensures var t := Apply(s, a); t.phase == s.phase && t.replies == s.replies && s.phase.Relaying?
  {
    hide AllReplies, ReplyBytes, Receive, Write;
  }
}
