/** The session object of the SOCKS server: its two buffers and its completion handlers. */
module RelaySession {
  import opened Bytes
  import opened Relay

  // Send_reply's eight bytes.
  method BuildReply(permit: bool, command: nat, port: nat, ip: seq<byte>) returns (reply: array<byte>)
    requires |ip| == 4
    ensures fresh(reply)
    ensures reply[..] == ReplyBytes(if command == 2 then Reply(permit, port, ip) else Reply(permit, 0, []))
  {
    reply := new byte[8](i => 0);
    reply[1] := if permit then 90 else 91;
    if command == 2 {
      reply[2] := (port / 256 % 256) as byte;
      reply[3] := (port % 256) as byte;
      for i := 0 to 4
        invariant reply[0] == 0 && reply[1] == (if permit then 90 else 91)
        invariant reply[2] == (port / 256 % 256) as byte && reply[3] == (port % 256) as byte
        invariant forall k :: 0 <= k < i ==> reply[4 + k] == ip[k]
      {
        reply[4 + i] := ip[i];
      }
    }
    assert reply[..] == reply[..4] + reply[4..];
  }

  class RelayingSession {
    const serverBuffer: array<byte>
    const clientBuffer: array<byte>
    var toClient: seq<byte>
    var toServer: seq<byte>
    // How far the two composed writes have come.
    var downPos: nat
    var downLength: nat
    var upPos: nat
    var upLength: nat
    ghost var state: Session
    // Where the session began, and the completions so far.
    ghost var start: Session
    ghost var run: seq<Action>

    ghost predicate Valid()
      reads this, serverBuffer, clientBuffer
    {
      && Initial(start) && Possible(start, run) && state == Run(start, run) && Safe(state)
      && serverBuffer != clientBuffer && serverBuffer.Length == MAX_LENGTH && clientBuffer.Length == MAX_LENGTH
      && serverBuffer[..] == state.down.buffer && clientBuffer[..] == state.up.buffer
      && toClient == state.toClient && toServer == state.up.written
      && (state.down.op.Writing? ==> state.down.op == Writing(downPos, downLength))
      && (state.up.op.Writing? ==> state.up.op == Writing(upPos, upLength))
    }

    constructor ()
      ensures Valid() && run == [] && Initial(state) && fresh(serverBuffer) && fresh(clientBuffer)
    {
      serverBuffer := new byte[MAX_LENGTH];
      clientBuffer := new byte[MAX_LENGTH];
      toClient, toServer := [], [];
      downPos, downLength, upPos, upLength := 0, 0, 0, 0;
      run := [];
      new;
      state := Session(Waiting, [], [], Pump([], [], serverBuffer[..], Idle), Pump([], [], clientBuffer[..], Idle));
      start := state;
    }

    ghost predicate Took(before: Session, steps: seq<Action>, a: Action)
      reads this`state, this`run
    {
      state == Apply(before, a) && run == steps + [a]
    }

    ghost method Note(a: Action)
      requires Possible(start, run) && state == Run(start, run) && Enabled(state, a)
      modifies this`state, this`run
      ensures Took(old(state), old(run), a) && Possible(start, run) && state == Run(start, run)
    {
      assert (run + [a])[..|run|] == run;
      state, run := Apply(state, a), run + [a];
    }

    // Main result for the object: the client has got the replies and then what the server sent, in order
    // and without gaps, the server what the client sent; all of it whenever the next read is awaited.
    lemma StreamsAreWhole()
      requires Valid()
      ensures toServer <= FromClient(run) && (state.up.op == Reading ==> toServer == FromClient(run))
      ensures AllReplies(state.replies) <= toClient
      ensures var data := toClient[|AllReplies(state.replies)|..];
        data <= FromServer(run) && (state.down.op == Reading ==> data == FromServer(run))
    {
      NothingIsLost(start, run);
      var replies := AllReplies(state.replies);
      assert toClient == replies + state.down.written;
      assert toClient[|replies|..] == state.down.written;
    }

    // read_request's handler, after parsing and checking the rules, up to send_reply.
    method OnRequest(version: nat, command: nat, permitted: bool, port: nat, ip: seq<byte>)
      requires Valid() && state.phase == Waiting && |ip| == 4
      requires permitted ==> command == 1 || command == 2
      modifies this`toClient, this`state, this`run
      ensures Valid() && Took(old(state), old(run), Request(command, version == 4 && permitted, port, ip))
    {
      hide Possible, Run, Initial;
      var permit := version == 4 && permitted;
      ApplySafe(state, Request(command, permit, port, ip));
      var reply := BuildReply(permit, command, port, ip);
      toClient := toClient + reply[..];
      Note(Request(command, permit, port, ip));
    }

    // connect's handler.
    method OnConnect(ok: bool)
      requires Valid() && state.phase == Connecting
      modifies this`state, this`run
      ensures Valid() && Took(old(state), old(run), if ok then Connected else ConnectFailed)
    {
      hide Possible, Run, Initial;
      ApplySafe(state, if ok then Connected else ConnectFailed);
      Note(if ok then Connected else ConnectFailed);
    }

    // bind's handler: the second reply, then the relay in either case.
    method OnAccept(ok: bool, expected: bool)
      requires Valid() && state.phase == Binding
      modifies this`toClient, this`state, this`run
      ensures Valid() && Took(old(state), old(run), if ok then Accepted(expected) else AcceptFailed)
    {
      hide Possible, Run, Initial;
      ApplySafe(state, if ok then Accepted(expected) else AcceptFailed);
      if ok {
        var reply := new byte[8](i => 0);
        reply[1] := if expected then 90 else 91;
        assert reply[..] == ReplyBytes(Reply(expected, 0, []));
        toClient := toClient + reply[..];
      }
      Note(if ok then Accepted(expected) else AcceptFailed);
    }

    method Fill(buffer: array<byte>, chunk: seq<byte>)
      requires |chunk| <= buffer.Length
      modifies buffer
      ensures buffer[..] == chunk + old(buffer[..])[|chunk|..]
    {
      for i := 0 to |chunk|
        invariant forall k :: 0 <= k < i ==> buffer[k] == chunk[k]
        invariant forall k :: i <= k < buffer.Length ==> buffer[k] == old(buffer[k])
      {
        buffer[i] := chunk[i];
      }
    }

    // read_server's completion: the chunk is in server_buffer_, and write_client starts.
    method OnServerRead(ok: bool, chunk: seq<byte>)
      requires Valid() && Enabled(state, if ok then DownData(chunk) else DownReadFailed)
      modifies this`downPos, this`downLength, this`state, this`run, serverBuffer
      ensures Valid() && Took(old(state), old(run), if ok then DownData(chunk) else DownReadFailed)
    {
      hide Possible, Run, Initial;
      ApplySafe(state, if ok then DownData(chunk) else DownReadFailed);
      if ok {
        Fill(serverBuffer, chunk);
        downPos, downLength := 0, |chunk|;
      }
      Note(if ok then DownData(chunk) else DownReadFailed);
    }

    // A part of write_client's composed write; after the last part read_server starts again.
    method OnClientWrite(ok: bool, n: nat)
      requires Valid() && Enabled(state, if ok then DownWrote(n) else DownWriteFailed)
      modifies this`downPos, this`toClient, this`state, this`run
      ensures Valid() && Took(old(state), old(run), if ok then DownWrote(n) else DownWriteFailed)
    {
      hide Possible, Run, Initial;
      ApplySafe(state, if ok then DownWrote(n) else DownWriteFailed);
      if ok {
        assert serverBuffer[downPos..downPos + n] == state.down.buffer[downPos..downPos + n];
        toClient := toClient + serverBuffer[downPos..downPos + n];
        downPos := downPos + n;
      }
      Note(if ok then DownWrote(n) else DownWriteFailed);
    }

    // read_client's completion.
    method OnClientRead(ok: bool, chunk: seq<byte>)
      requires Valid() && Enabled(state, if ok then UpData(chunk) else UpReadFailed)
      modifies this`upPos, this`upLength, this`state, this`run, clientBuffer
      ensures Valid() && Took(old(state), old(run), if ok then UpData(chunk) else UpReadFailed)
    {
      hide Possible, Run, Initial;
      ApplySafe(state, if ok then UpData(chunk) else UpReadFailed);
      if ok {
        Fill(clientBuffer, chunk);
        upPos, upLength := 0, |chunk|;
      }
      Note(if ok then UpData(chunk) else UpReadFailed);
    }

    // A part of write_server's composed write.
    method OnServerWrite(ok: bool, n: nat)
      requires Valid() && Enabled(state, if ok then UpWrote(n) else UpWriteFailed)
      modifies this`upPos, this`toServer, this`state, this`run
      ensures Valid() && Took(old(state), old(run), if ok then UpWrote(n) else UpWriteFailed)
    {
      hide Possible, Run, Initial;
      ApplySafe(state, if ok then UpWrote(n) else UpWriteFailed);
      if ok {
        assert clientBuffer[upPos..upPos + n] == state.up.buffer[upPos..upPos + n];
        toServer := toServer + clientBuffer[upPos..upPos + n];
        upPos := upPos + n;
      }
      Note(if ok then UpWrote(n) else UpWriteFailed);
    }
  }
}
