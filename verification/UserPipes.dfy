/** The single-process multi-user server: user slots, names, and the pipes that users send each other. */
module UserPipes {
  import opened Outcomes
  import opened Commands
  import opened Engine
  import opened Descriptors
  import opened UserPipeHistory
  import ShellProcess

  const MAX_USER := 30

  const NO_NAME := "(no name)"

  // An open pipe of the server together with the descriptors that hold it.
  datatype OpenPipe = OpenPipe(id: nat, pair: FdPair)

  // Where a user pipe argument leads: nowhere, to a real pipe, or to /dev/null on descriptor fd.
  datatype Source = Absent | Real(id: nat) | Null(fd: nat)

  function PipesOf(s: Source): set<nat> { if s.Real? then {s.id} else {} }

  function NullsOf(s: Source): set<nat> { if s.Null? then {s.fd} else {} }

  // The pair that the code stores for s.
  ghost predicate Stored(pairs: map<nat, FdPair>, nulls: set<nat>, s: Source, pair: FdPair) {
    match s
    case Absent => true
    case Real(p) => p in pairs && pairs[p] == pair
    case Null(f) => f in nulls && pair == FdPair(f, f)
  }

  function EndOf(s: Source, read: bool, otherwise: End): End {
    match s
    case Absent => otherwise
    case Real(p) => if read then ReadEnd(p) else WriteEnd(p)
    case Null(_) => DevNull
  }

  function Ids(p: Option<OpenPipe>): set<nat> {
    match p case None => {} case Some(q) => {q.id}
  }

  ghost predicate Known(pairs: map<nat, FdPair>, p: Option<OpenPipe>) {
    p.Some? ==> p.value.id in pairs && pairs[p.value.id] == p.value.pair
  }

  // ----- The child's side ------------------------------------------------------------------------------

  lemma SourceOpen(t: Table, base: Table, pairs: map<nat, FdPair>, nulls: set<nat>, s: Source, pair: FdPair)
    requires Accounts(t, base, pairs, nulls) && Stored(pairs, nulls, s, pair) && !s.Absent?
    ensures pair.read in t && pair.write in t && pair.read > 2 && pair.write > 2
    ensures t[pair.read] == EndOf(s, true, DevNull) && t[pair.write] == EndOf(s, false, DevNull)
  {
    if s.Real? { assert Opened(t, base, s.id, pair); }
  }

  lemma SourceTaken(t: Table, base: Table, pairs: map<nat, FdPair>, nulls: set<nat>, s: Source, pair: FdPair)
    requires Standard(t) && Accounts(t, base, pairs, nulls) && Stored(pairs, nulls, s, pair) && !s.Absent?
    requires pair.read in t && pair.write in t
    ensures Standard(InputFrom(t, pair)) && Accounts(InputFrom(t, pair), base, pairs - PipesOf(s), nulls - NullsOf(s))
    ensures Standard(OutputTo(t, pair, false)) && Accounts(OutputTo(t, pair, false), base, pairs - PipesOf(s), nulls - NullsOf(s))
    ensures Standard(t - {pair.read, pair.write})
    ensures Accounts(t - {pair.read, pair.write}, base, pairs - PipesOf(s), nulls - NullsOf(s))
  {
    hide Accounts;
    assert pairs - {} == pairs && nulls - {} == nulls;
    if s.Real? {
      InputAccounts(t, base, pairs, nulls, s.id);
      OutputAccounts(t, base, pairs, nulls, s.id, false);
      CloseAccounts(t, base, pairs, nulls, s.id);
    } else {
      NullAccounts(t, base, pairs, nulls, s.fd, 0);
      NullAccounts(t, base, pairs, nulls, s.fd, 1);
      SourceOpen(t, base, pairs, nulls, s, pair);
      assert {s.fd, s.fd} == {s.fd};
    }
  }

  method UserPipeIn(child: Process, c: Command, pair: FdPair, ghost base: Table, ghost pairs: map<nat, FdPair>,
          ghost nulls: set<nat>, ghost src: Source)
    requires Standard(child.fds) && Accounts(child.fds, base, pairs, nulls)
    requires c.userIn == !src.Absent? && Stored(pairs, nulls, src, pair)
    modifies child
    ensures Standard(child.fds) && Accounts(child.fds, base, pairs - PipesOf(src), nulls - NullsOf(src))
    ensures child.fds[0] == EndOf(src, true, old(child.fds)[0])
    ensures child.fds[1] == old(child.fds)[1] && child.fds[2] == old(child.fds)[2]
    ensures src.Null? ==> src.fd > 2 && src.fd !in child.fds
  {
    hide Accounts;
    ghost var t := child.fds;
    if c.userIn {
      SourceOpen(t, base, pairs, nulls, src, pair);
      SourceTaken(t, base, pairs, nulls, src, pair);
      child.TryDup2(pair.read, 0);
      child.TryClose(pair.write);
      child.TryClose(pair.read);
      assert child.fds == InputFrom(t, pair);
    } else {
      assert pairs - {} == pairs && nulls - {} == nulls;
    }
  }

  method UserPipeOut(child: Process, c: Command, pair: FdPair, ghost base: Table, ghost pairs: map<nat, FdPair>,
          ghost nulls: set<nat>, ghost sink: Source)
    requires Standard(child.fds) && Accounts(child.fds, base, pairs, nulls)
    requires c.userOut == !sink.Absent? && Stored(pairs, nulls, sink, pair)
    modifies child
    ensures Standard(child.fds) && Accounts(child.fds, base, pairs - PipesOf(sink), nulls - NullsOf(sink))
    ensures child.fds[1] == EndOf(sink, false, old(child.fds)[1])
    ensures child.fds[0] == old(child.fds)[0] && child.fds[2] == old(child.fds)[2]
    ensures forall f :: f !in old(child.fds) && f > 2 ==> f !in child.fds
  {
    hide Accounts;
    ghost var t := child.fds;
    if c.userOut {
      SourceOpen(t, base, pairs, nulls, sink, pair);
      SourceTaken(t, base, pairs, nulls, sink, pair);
      child.TryDup2(pair.write, 1);
      child.TryClose(pair.read);
      child.TryClose(pair.write);
      assert child.fds == OutputTo(t, pair, false);
    } else {
      assert pairs - {} == pairs && nulls - {} == nulls;
    }
  }

  // numbered_pipe_child_in and pipe_child_in: both replace whatever standard input was.
  method OrdinaryIn(child: Process, given: Option<OpenPipe>, ghost base: Table, ghost pairs: map<nat, FdPair>,
          ghost nulls: set<nat>)
    requires Standard(child.fds) && Accounts(child.fds, base, pairs, nulls) && Known(pairs, given)
    modifies child
    ensures Standard(child.fds) && Accounts(child.fds, base, pairs - Ids(given), nulls)
    ensures child.fds[0] == if given.Some? then ReadEnd(given.value.id) else old(child.fds)[0]
    ensures child.fds[1] == old(child.fds)[1] && child.fds[2] == old(child.fds)[2]
    ensures forall f :: f !in old(child.fds) && f > 2 ==> f !in child.fds
  {
    hide Accounts;
    ghost var t := child.fds;
    if given.Some? {
      var pair := given.value.pair;
      SourceOpen(t, base, pairs, nulls, Real(given.value.id), pair);
      InputAccounts(t, base, pairs, nulls, given.value.id);
      child.Dup2(pair.read, 0);
      child.Close(pair.write);
      child.Close(pair.read);
      assert child.fds == InputFrom(t, pair);
    }
    assert pairs - {} == pairs;
  }

  // pipe_child_out: when the pair was closed by user_pipe_in, dup2 fails and standard output stays.
  method OrdinaryOut(child: Process, c: Command, pair: FdPair, ghost base: Table, ghost pairs: map<nat, FdPair>,
          ghost nulls: set<nat>, ghost output: Option<nat>)
    requires Standard(child.fds) && Accounts(child.fds, base, pairs, nulls)
    requires ShellProcess.Writes(c) && c.pipeStderr ==> output.Some?
    requires ShellProcess.Writes(c) ==>
      if output.Some? then output.value in pairs && pairs[output.value] == pair
      else pair.read == pair.write && pair.write !in child.fds
    modifies child
    ensures Standard(child.fds)
    ensures child.fds[0] == old(child.fds)[0]
    ensures child.fds[1] == if ShellProcess.Writes(c) && output.Some? then WriteEnd(output.value) else old(child.fds)[1]
    ensures child.fds[2] == if ShellProcess.Writes(c) && c.pipeStderr then WriteEnd(output.value) else old(child.fds)[2]
  {
    hide Accounts;
    ghost var t := child.fds;
    if c.pipeAfter || c.numberedAfter {
      if output.Some? {
        SourceOpen(t, base, pairs, nulls, Real(output.value), pair);
        OutputAccounts(t, base, pairs, nulls, output.value, c.pipeStderr);
      }
      if c.pipeStderr {
        child.TryDup2(pair.write, 2);
      }
      child.TryDup2(pair.write, 1);
      child.TryClose(pair.read);
      child.TryClose(pair.write);
      assert output.Some? ==> child.fds == OutputTo(t, pair, c.pipeStderr);
    }
  }

  // ----- The server -------------------------------------------------------------------------------------

  // The slot that a new user gets: the least free one of the thirty, or 0 when they are all taken.
  predicate NewSlot(id: nat, taken: set<nat>) {
    && (id == 0 <==> forall i :: 1 <= i <= MAX_USER ==> i in taken)
    && (id != 0 ==> id <= MAX_USER && id !in taken && forall i :: 1 <= i < id ==> i in taken)
  }

  // No two users share a name, the default name aside.
  ghost predicate NamesDiffer(clients: map<nat, string>) {
    && (forall i, j :: i in clients && j in clients && i != j && clients[i] == clients[j] ==> clients[i] == NO_NAME)
    && (0 in clients ==> clients[0] == NO_NAME)
  }

  // Every outstanding pipe belongs to two logged-in users and is the stored pair of the receiver.
  ghost predicate Backed(clients: map<nat, string>, pipesIn: map<(nat, nat), FdPair>, pairs: map<nat, FdPair>, h: seq<Event>) {
    forall i, j :: Outstanding(h, i, j).Some? ==>
      && i in clients && j in clients
      && (j, i) in pipesIn
      && Outstanding(h, i, j).value in pairs
      && pairs[Outstanding(h, i, j).value] == pipesIn[(j, i)]
  }

  predicate AllApart(a: set<nat>, b: set<nat>, c: set<nat>, d: set<nat>, e: set<nat>) {
    a !! b !! c !! d !! e
  }

  predicate NullsGrow(before: set<nat>, after: set<nat>, a: set<nat>, b: set<nat>) {
    a !! before && b !! before && a !! b && after == before + a + b
  }

  lemma OneMoreNull(before: set<nat>, middle: set<nat>, after: set<nat>, a: set<nat>, b: set<nat>)
    requires NullsGrow(before, middle, a, {}) && after == middle + b && b !! middle
    ensures NullsGrow(before, after, a, b) && a !! b
  {
  }

  lemma OneMoreApart(a: set<nat>, b: set<nat>, c: set<nat>, d: set<nat>)
    requires AllApart(a, b, c, {}, {}) && d !! (a + b + c)
    ensures AllApart(a, b, c, d, {})
  {
  }

  // p is open in the server and is no user pipe: an ordinary or numbered pipe of the line.
  ghost predicate SpareIn(h: seq<Event>, pairs: map<nat, FdPair>, p: Option<OpenPipe>) {
    Known(pairs, p) && (p.Some? ==> forall i, j :: Outstanding(h, i, j) != Some(p.value.id))
  }

  // The pipes open before and after are on the same descriptors.
  ghost predicate SamePlaces(before: map<nat, FdPair>, after: map<nat, FdPair>) {
    forall p :: p in before && p in after ==> after[p] == before[p]
  }

  lemma PlacesKept(a: map<nat, FdPair>, b: map<nat, FdPair>, c: map<nat, FdPair>)
    requires SamePlaces(a, b) && SamePlaces(b, c) && a.Keys <= b.Keys
    ensures SamePlaces(a, c)
  {
  }

  // The pairs a command's child needs are open and all different; without a pipe of its own,
  // pipe_fd is the /dev/null pair that stands in for a missing user pipe.
  ghost predicate ApartIn(pairs: map<nat, FdPair>, c: Command, pipeFd: FdPair, left: Option<OpenPipe>, due: Option<OpenPipe>,
                          src: Source, sink: Source, output: Option<nat>) {
    && Known(pairs, left) && Known(pairs, due)
    && (c.userIn <==> !src.Absent?) && (c.userOut <==> !sink.Absent?)
    && AllApart(Ids(left), Ids(due), PipesOf(src), PipesOf(sink), ToSet(output))
    && NullsOf(src) !! NullsOf(sink)
    && (ShellProcess.Writes(c) && c.pipeStderr ==> output.Some?)
    && (ShellProcess.Writes(c) ==>
          if output.Some? then output.value in pairs && pairs[output.value] == pipeFd
          else src.Null? && pipeFd == FdPair(src.fd, src.fd))
  }

  lemma NextIsApart(pairs: map<nat, FdPair>, c: Command, pipeFd: FdPair, left: Option<OpenPipe>, due: Option<OpenPipe>,
                    src: Source, sink: Source, output: Option<nat>, next: Option<OpenPipe>)
    requires ApartIn(pairs, c, pipeFd, left, due, src, sink, output)
    requires next.Some? ==> next.value.id !in Ids(left) + Ids(due) + PipesOf(src)
    ensures AllApart(Ids(left), Ids(due), PipesOf(src), Ids(next), {}) && NullsOf(src) !! NullsOf(sink)
    ensures (c.userIn <==> !src.Absent?) && (c.userOut <==> !sink.Absent?)
  {
  }

  // What the user pipe arguments lead to, and where the command itself writes.
  ghost predicate Ends(h: seq<Event>, me: nat, c: Command, target: Option<OpenPipe>, made: nat, sends: bool,
                       inPair: FdPair, outPair: FdPair, src: Source, sink: Source, output: Option<nat>) {
    && src == (if !c.userIn || c.inId < 0 then Absent
               else match Outstanding(h, c.inId, me) case Some(p) => Real(p) case None => Null(inPair.read))
    && sink == (if !c.userOut then Absent else if sends then Real(made) else Null(outPair.write))
    && output == (if c.kind.NumberedPipe? && target.Some? then Some(target.value.id)
                  else if c.pipeAfter && !src.Null? then Some(made)
                  else None)
  }

  // The pair to read from is the stored one, and the waiting pipe is still the same.
  ghost predicate InputStored(history: seq<Event>, pipesIn: map<(nat, nat), FdPair>, me: nat, c: Command, h: seq<Event>, inPair: FdPair) {
    c.userIn ==>
      && c.inId >= 0 && Outstanding(history, c.inId, me) == Outstanding(h, c.inId, me)
      && (me, c.inId as nat) in pipesIn && pipesIn[(me, c.inId as nat)] == inPair
  }

  // What the checks before the fork have decided, from the pipes made, the waiting pipe, the
  // history, the pairs and the nulls before them.
  ghost predicate DecidedIn(history: seq<Event>, pairs: map<nat, FdPair>, nulls: set<nat>, pipesIn: map<(nat, nat), FdPair>,
                            me: nat, c: Command, left: Option<OpenPipe>, due: Option<OpenPipe>, target: Option<OpenPipe>,
                            made: nat, sends: bool, h: seq<Event>, ps: map<nat, FdPair>, ns: set<nat>,
                            next: Option<OpenPipe>, inPair: FdPair, outPair: FdPair, pipeFd: FdPair,
                            src: Source, sink: Source, output: Option<nat>) {
    && Ends(h, me, c, target, made, sends, inPair, outPair, src, sink, output)
    && next.Some? == c.pipeAfter && SpareIn(history, pairs, next) && (next.Some? ==> next.value.id == made)
    && InputStored(history, pipesIn, me, c, h, inPair)
    && Stored(pairs, nulls, src, inPair) && Stored(pairs, nulls, sink, outPair)
    && ApartIn(pairs, c, pipeFd, left, due, src, sink, output)
    && SpareIn(history, pairs, left) && SpareIn(history, pairs, due)
    && history == h + (if sends && c.outId >= 0 then [Piped(me, c.outId, made)] else [])
    && pairs.Keys == ps.Keys + (if c.pipeAfter || sends then {made} else {}) && SamePlaces(ps, pairs)
    && NullsGrow(ns, nulls, NullsOf(src), NullsOf(sink))
  }

  // The receiving half.
  lemma ReceivedDecided(h: seq<Event>, pairs: map<nat, FdPair>, nulls: set<nat>, pipesIn: map<(nat, nat), FdPair>,
                        me: nat, c: Command, left: Option<OpenPipe>, due: Option<OpenPipe>, target: Option<OpenPipe>,
                        made: nat, ps: map<nat, FdPair>, ns: set<nat>, next: Option<OpenPipe>, inPair: FdPair, pipeFd: FdPair,
                        src: Source, output: Option<nat>)
    requires c.kind.Pipe? && !c.userOut && Coherent(c) && target.None? && (c.userIn ==> c.inId >= 0)
    requires SpareIn(h, ps, left) && SpareIn(h, ps, due) && Ids(left) !! Ids(due) && made !in Ids(left) + Ids(due)
    requires next.Some? == c.pipeAfter && (next.Some? ==> next.value.id == made && made !in ps) && SpareIn(h, pairs, next)
    requires pairs == if next.Some? then ps[made := next.value.pair] else ps
    requires src == if !c.userIn then Absent else match Outstanding(h, c.inId, me) case Some(p) => Real(p) case None => Null(inPair.read)
    requires Stored(pairs, nulls, src, inPair) && (src.Real? ==> src.id != made)
    requires output == if c.pipeAfter && !src.Null? then Some(made) else None
    requires c.pipeAfter ==> pipeFd == if src.Null? then FdPair(src.fd, src.fd) else next.value.pair
    requires c.userIn ==> (me, c.inId as nat) in pipesIn && pipesIn[(me, c.inId as nat)] == inPair
    requires NullsOf(src) !! ns && nulls == ns + NullsOf(src)
    ensures DecidedIn(h, pairs, nulls, pipesIn, me, c, left, due, target, made, false, h, ps, ns,
                      next, inPair, FdPair(0, 0), pipeFd, src, Absent, output)
  {
    SparesKept(h, ps, pairs, left, due, next);
    hide Outstanding;
    assert h + [] == h;
  }

  lemma SparesKept(h: seq<Event>, ps: map<nat, FdPair>, pairs: map<nat, FdPair>, left: Option<OpenPipe>, due: Option<OpenPipe>, next: Option<OpenPipe>)
    requires SpareIn(h, ps, left) && SpareIn(h, ps, due) && (next.Some? ==> next.value.id !in ps)
    requires pairs == if next.Some? then ps[next.value.id := next.value.pair] else ps
    ensures SpareIn(h, pairs, left) && SpareIn(h, pairs, due) && SamePlaces(ps, pairs)
  {
    hide Outstanding;
  }

  // What the sending check does.
  ghost predicate Sent(h: seq<Event>, pairs0: map<nat, FdPair>, nulls0: set<nat>, pipesIn0: map<(nat, nat), FdPair>,
                       history: seq<Event>, pairs: map<nat, FdPair>, nulls: set<nat>, pipesIn: map<(nat, nat), FdPair>,
                       me: nat, to: int, pair: FdPair, sink: Source) {
    && !sink.Absent?
    && (sink.Real? ==>
          && to >= 0 && history == h + [Piped(me, to, sink.id)]
          && pairs == pairs0[sink.id := pair] && sink.id !in pairs0 && nulls == nulls0
          && pipesIn == pipesIn0[(to as nat, me) := pair])
    && (sink.Null? ==>
          && history == h && pairs == pairs0 && pipesIn == pipesIn0
          && nulls == nulls0 + {sink.fd} && sink.fd !in nulls0)
    && (forall a, b :: Outstanding(history, a, b) == if sink.Real? && a == me && b == to then Some(sink.id) else Outstanding(h, a, b))
  }

  lemma SentInput(h: seq<Event>, pairs0: map<nat, FdPair>, nulls0: set<nat>, pipesIn0: map<(nat, nat), FdPair>,
                  history: seq<Event>, pairs: map<nat, FdPair>, nulls: set<nat>, pipesIn: map<(nat, nat), FdPair>,
                  me: nat, c: Command, outPair: FdPair, sink: Source, inPair: FdPair, src: Source)
    requires Sent(h, pairs0, nulls0, pipesIn0, history, pairs, nulls, pipesIn, me, c.outId, outPair, sink)
    requires InputStored(h, pipesIn0, me, c, h, inPair) && Stored(pairs0, nulls0, src, inPair)
    requires c.userIn && c.inId == me && c.outId == me ==> Outstanding(h, me, me).Some? && sink.Null?
    ensures InputStored(history, pipesIn, me, c, h, inPair) && Stored(pairs, nulls, src, inPair)
  {
    hide Outstanding;
  }

  // A sent pipe is a new one, so other pipes of the line stay what they were.
  lemma StaysSpare(p: Option<OpenPipe>, h: seq<Event>, pairs0: map<nat, FdPair>, nulls0: set<nat>, pipesIn0: map<(nat, nat), FdPair>,
                   history: seq<Event>, pairs: map<nat, FdPair>, nulls: set<nat>, pipesIn: map<(nat, nat), FdPair>,
                   me: nat, to: int, pair: FdPair, sink: Source)
    requires SpareIn(h, pairs0, p) && Sent(h, pairs0, nulls0, pipesIn0, history, pairs, nulls, pipesIn, me, to, pair, sink)
    ensures SpareIn(history, pairs, p) && Known(pairs, p)
  {
    hide Outstanding;
  }

  // The sending half, after the receiving half has been decided.
  lemma SentDecided(h: seq<Event>, pairs0: map<nat, FdPair>, nulls0: set<nat>, pipesIn0: map<(nat, nat), FdPair>,
                    history: seq<Event>, pairs: map<nat, FdPair>, nulls: set<nat>, pipesIn: map<(nat, nat), FdPair>,
                    me: nat, c: Command, left: Option<OpenPipe>, due: Option<OpenPipe>, made: nat, sends: bool,
                    ps: map<nat, FdPair>, ns: set<nat>, inPair: FdPair, outPair: FdPair, pipeFd: FdPair, src: Source, sink: Source)
    requires c.kind.Pipe? && Coherent(c) && c.userOut && !c.pipeAfter && pairs0.Keys == ps.Keys
    requires DecidedIn(h, pairs0, nulls0, pipesIn0, me, c.(userOut := false), left, due, None, made, false, h, ps, ns,
                       None, inPair, FdPair(0, 0), pipeFd, src, Absent, None)
    requires Sent(h, pairs0, nulls0, pipesIn0, history, pairs, nulls, pipesIn, me, c.outId, outPair, sink)
    requires sink == if sends then Real(made) else Null(outPair.write)
    requires made !in Ids(left) + Ids(due) && Stored(pairs, nulls, sink, outPair)
    requires src.Real? ==> src.id != made
    requires c.userIn && c.inId == me && c.outId == me ==> Outstanding(h, me, me).Some? && sink.Null?
    ensures DecidedIn(history, pairs, nulls, pipesIn, me, c, left, due, None, made, sends, h, ps, ns,
                      None, inPair, outPair, outPair, src, sink, None)
  {
    SentInput(h, pairs0, nulls0, pipesIn0, history, pairs, nulls, pipesIn, me, c, outPair, sink, inPair, src);
    StaysSpare(None, h, pairs0, nulls0, pipesIn0, history, pairs, nulls, pipesIn, me, c.outId, outPair, sink);
    StaysSpare(left, h, pairs0, nulls0, pipesIn0, history, pairs, nulls, pipesIn, me, c.outId, outPair, sink);
    StaysSpare(due, h, pairs0, nulls0, pipesIn0, history, pairs, nulls, pipesIn, me, c.outId, outPair, sink);
    OneMoreApart(Ids(left), Ids(due), PipesOf(src), PipesOf(sink));
    hide Outstanding, SpareIn, Known, Stored, InputStored, AllApart;
    if sink.Null? { OneMoreNull(ns, nulls0, nulls, NullsOf(src), NullsOf(sink)); }
    assert h + [] == h;
  }

  class Server {
    const process: Process
    const init: Table
    const writable: set<string>
    const record: array2<bool>
    var clients: map<nat, string>
    var pipesIn: map<(nat, nat), FdPair>
    var pipesOut: map<nat, FdPair>
    var pipesMade: nat
    var launched: seq<Table>
    ghost var history: seq<Event>
    ghost var pairs: map<nat, FdPair>
    ghost var nulls: set<nat>

    // The server's descriptors are its initial ones, both ends of each pipe in `pairs`, and `nulls`.
    ghost predicate Books()
      reads this`pairs, this`nulls, this`pipesMade, process
    {
      && Standard(init) && Standard(process.fds)
      && process.fds[0] == init[0] && process.fds[1] == init[1] && process.fds[2] == init[2]
      && Accounts(process.fds, init, pairs, nulls)
      && (forall p :: p in pairs ==> p < pipesMade)
    }

    ghost predicate RecordIsHistory()
      reads this`history, record
    {
      && record.Length0 == MAX_USER + 1 && record.Length1 == MAX_USER + 1
      && (forall i: nat, j: nat :: i <= MAX_USER && j <= MAX_USER ==> (record[i, j] <==> Outstanding(history, i, j).Some?))
    }

    ghost predicate Valid()
      reads this`clients, this`pipesIn, this`pipesMade, this`history, this`pairs, this`nulls, process, record
    {
      && Books()
      && (forall i :: i in clients ==> i <= MAX_USER)
      && NamesDiffer(clients)
      && Protocol(history) && NewPipes(history, pipesMade)
      && RecordIsHistory()
      && Backed(clients, pipesIn, pairs, history)
    }

    constructor (process: Process, writable: set<string>)
      requires Standard(process.fds)
      requires forall f :: f in process.fds ==> process.fds[f].Inherited?
      ensures Valid() && fresh(record)
      ensures this.process == process && init == process.fds && clients == map[] && history == [] && pairs == map[] && launched == []
    {
      this.process := process;
      this.init := process.fds;
      this.writable := writable;
      record := new bool[31, 31]((i, j) => false);
      clients, pipesIn, pipesOut, pipesMade, launched := map[], map[], map[], 0, [];
      history, pairs, nulls := [], map[], {};
    }

    // ----- Users ------------------------------------------------------------------------------------

    method FindAvailableId() returns (id: nat)
      ensures NewSlot(id, clients.Keys)
    {
      for i := 1 to MAX_USER + 1
        invariant forall k :: 1 <= k < i ==> k in clients
      {
        if i !in clients { return i; }
      }
      return 0;
    }

    // A new user gets the least free slot and starts without pipes to or from it. When all thirty slots
    // are taken the user is put into slot 0, over whoever was there.
    method Login() returns (id: nat)
      requires Valid()
      modifies this`clients
      ensures Valid()
      ensures NewSlot(id, old(clients).Keys)
      ensures clients == old(clients)[id := NO_NAME]
      ensures id !in old(clients) ==> forall j: nat :: j <= MAX_USER ==> !record[id, j] && !record[j, id]
    {
      hide Accounts;
      id := FindAvailableId();
      forall j: nat | j <= MAX_USER && id !in clients ensures !record[id, j] && !record[j, id] {
        assert Outstanding(history, id, j).None? && Outstanding(history, j, id).None?;
      }
      clients := clients[id := NO_NAME];
    }

    // name: refused if any user in a proper slot, the caller included, already has it.
    method Rename(me: nat, name: string) returns (ok: bool)
      requires Valid() && me in clients && me != 0
      modifies this`clients
      ensures Valid()
      ensures ok <==> forall i :: 1 <= i <= MAX_USER && i in old(clients) ==> old(clients)[i] != name
      ensures clients == if ok then old(clients)[me := name] else old(clients)
    {
      hide Accounts;
      for i := 1 to MAX_USER + 1
        invariant forall k :: 1 <= k < i && k in clients ==> clients[k] != name
      {
        if i in clients && clients[i] == name {
          return false;
        }
      }
      clients := clients[me := name];
      return true;
    }

    // exit: the slot is freed and every pipe to or from it is forgotten.
    method Exit(me: nat)
      requires Valid() && me in clients
      modifies this`clients, this`history, record
      ensures Valid()
      ensures clients == old(clients) - {me}
      ensures history == old(history) + [Left(me)]
      ensures forall i: nat, j: nat :: i <= MAX_USER && j <= MAX_USER ==>
                record[i, j] == (old(record[i, j]) && i != me && j != me)
    {
      hide Accounts, Outstanding, Protocol, NewPipes;
      clients := clients - {me};
      for i := 0 to MAX_USER + 1
        invariant record.Length0 == MAX_USER + 1 && record.Length1 == MAX_USER + 1
        invariant forall a: nat, b: nat :: a <= MAX_USER && b <= MAX_USER ==>
          record[a, b] == (old(record[a, b]) && !(a == me && b < i) && !(b == me && a < i))
        modifies record
      {
        record[me, i] := false;
        record[i, me] := false;
      }
      ghost var before := history;
      history := history + [Left(me)];
      Appended(before, Left(me));
      AppendLeft(before, me, pipesMade);
    }

    // End of file on the client's socket: the slot is freed, but the loop that should clear the
    // records only ever touches the entry (me, me). The records stay those of the users who are there
    // if and only if there was none between this user and another.
    method Disconnect(me: nat)
      requires Valid() && me in clients
      modifies this`clients, this`history, record
      ensures clients == old(clients) - {me}
      ensures history == old(history) + [Left(me)]
      ensures record.Length0 == MAX_USER + 1 && record.Length1 == MAX_USER + 1
      ensures forall i: nat, j: nat :: i <= MAX_USER && j <= MAX_USER ==>
                record[i, j] == (old(record[i, j]) && !(i == me && j == me))
      ensures Valid() <==> forall j: nat :: j <= MAX_USER && j != me ==> !old(record[me, j]) && !old(record[j, me])
    {
      hide Accounts, Outstanding, Protocol, NewPipes;
      for j := 1 to MAX_USER + 1
        invariant record.Length0 == MAX_USER + 1 && record.Length1 == MAX_USER + 1
        invariant forall a: nat, b: nat :: a <= MAX_USER && b <= MAX_USER ==> record[a, b] == (old(record[a, b]) && !(a == me && b == me && j > 1))
        modifies record
      {
        record[me, me] := false;
        record[me, me] := false;
      }
      clients := clients - {me};
      ghost var before := history;
      history := history + [Left(me)];
      Appended(before, Left(me));
      AppendLeft(before, me, pipesMade);
    }

    // ----- One command -------------------------------------------------------------------------------

    method OpenNull() returns (pair: FdPair, ghost fd: nat)
      requires Books()
      modifies this`nulls, process
      ensures Books() && pair == FdPair(fd, fd) && fd !in old(nulls) && nulls == old(nulls) + {fd}
    {
      hide Accounts;
      ghost var t := process.fds;
      var f := process.Open(DevNull);
      OpenNullAccounts(t, init, pairs, nulls, f);
      NullIsNew(t, init, pairs, nulls, f);
      nulls := nulls + {f};
      pair, fd := FdPair(f, f), f;
    }

    method MakePipe() returns (p: OpenPipe)
      requires Books()
      modifies this`pairs, this`pipesMade, process
      ensures Books() && p.id == old(pipesMade) && p.id !in old(pairs)
      ensures pairs == old(pairs)[p.id := p.pair] && pipesMade == old(pipesMade) + 1
    {
      hide Accounts;
      ghost var t := process.fds;
      var pair := process.Pipe(pipesMade);
      PipeAccounts(t, init, pairs, nulls, pipesMade, pair);
      pairs := pairs[pipesMade := pair];
      p := OpenPipe(pipesMade, pair);
      pipesMade := pipesMade + 1;
    }

    // The receiving check: the pipe waiting from that user, or /dev/null in its place.
    method CheckIn(me: nat, from: nat) returns (missing: bool, pair: FdPair, ghost src: Source)
      requires Valid() && me in clients
      modifies this`pipesIn, this`nulls, process
      ensures Valid()
      ensures src == match Outstanding(history, from, me) case Some(p) => Real(p) case None => Null(pair.read)
      ensures missing <==> Outstanding(history, from, me) == None
      ensures Stored(pairs, nulls, src, pair)
      ensures (me, from) in pipesIn && pipesIn[(me, from)] == pair
      ensures nulls == old(nulls) + NullsOf(src) && NullsOf(src) !! old(nulls)
      ensures forall k :: k in old(pipesIn) && k != (me, from) ==> k in pipesIn && pipesIn[k] == old(pipesIn)[k]
    {
      hide Accounts, Outstanding, Protocol, NewPipes;
      missing := from !in clients || !record[from, me];
      if missing {
        ghost var fd;
        pair, fd := OpenNull();
        pipesIn := pipesIn[(me, from) := pair];
        src := Null(fd);
      } else {
        pair := pipesIn[(me, from)];
        src := Real(Outstanding(history, from, me).value);
      }
    }

    // A new pipe to a user who has none waiting from `me`.
    method NewUserPipe(me: nat, to: nat) returns (p: OpenPipe)
      requires Valid() && me in clients && to in clients && Outstanding(history, me, to) == None
      modifies this`pipesIn, this`pipesOut, this`pipesMade, this`history, this`pairs, record, process
      ensures Valid() && p.id == old(pipesMade) && p.id !in old(pairs) && pipesMade == old(pipesMade) + 1
      ensures history == old(history) + [Piped(me, to, p.id)]
      ensures pairs == old(pairs)[p.id := p.pair] && pipesIn == old(pipesIn)[(to, me) := p.pair]
      ensures pipesOut == old(pipesOut)[me := p.pair]
      ensures forall i: nat, j: nat :: i <= MAX_USER && j <= MAX_USER ==> record[i, j] == (old(record[i, j]) || (i == me && j == to))
    {
      hide Accounts, Outstanding, Protocol, NewPipes, Backed;
      ghost var h, pairs0, pipesIn0 := history, pairs, pipesIn;
      p := MakePipe();
      pipesOut := pipesOut[me := p.pair];
      pipesIn := pipesIn[(to, me) := p.pair];
      record[me, to] := true;
      history := history + [Piped(me, to, p.id)];
      AppendPiped(h, me, to, p.id);
      BackedAfterSend(clients, pipesIn0, pairs0, h, me, to, p);
    }

    // The sending check: a new pipe to that user, or /dev/null if there is no such user or a pipe waits already.
    method CheckOut(me: nat, to: int) returns (pair: FdPair, ghost sink: Source)
      requires Valid() && me in clients
      modifies this`pipesIn, this`pipesOut, this`pipesMade, this`history, this`pairs, this`nulls, record, process
      ensures Valid()
      ensures pipesMade >= old(pipesMade)
      ensures sink == (if to >= 0 && to as nat in clients && Outstanding(old(history), me, to) == None then Real(old(pipesMade)) else Null(pair.write))
      ensures Sent(old(history), old(pairs), old(nulls), old(pipesIn), history, pairs, nulls, pipesIn, me, to, pair, sink)
      ensures Stored(pairs, nulls, sink, pair) && pipesOut == old(pipesOut)[me := pair]
      ensures forall i: nat, j: nat :: i <= MAX_USER && j <= MAX_USER ==> record[i, j] == (old(record[i, j]) || (sink.Real? && i == me && j == to))
    {
      hide Accounts, Outstanding, Protocol, NewPipes, Backed, Books, NamesDiffer;
      if to >= 0 && to as nat in clients && !record[me, to] {
        ghost var h := history;
        var p := NewUserPipe(me, to);
        pair := p.pair;
        sink := Real(p.id);
        OnePiped(h, me, to, p.id);
      } else {
        ghost var fd;
        pair, fd := OpenNull();
        pipesOut := pipesOut[me := pair];
        sink := Null(fd);
      }
    }

    ghost predicate Spare(p: Option<OpenPipe>)
      reads this`history, this`pairs
    {
      SpareIn(history, pairs, p)
    }

    method CloseStored(pair: FdPair, ghost src: Source)
      requires Books() && !src.Absent? && Stored(pairs, nulls, src, pair)
      modifies this`pairs, this`nulls, process
      ensures Books() && pairs == old(pairs) - PipesOf(src) && nulls == old(nulls) - NullsOf(src)
    {
      hide Accounts;
      ghost var t := process.fds;
      SourceOpen(t, init, pairs, nulls, src, pair);
      SourceTaken(t, init, pairs, nulls, src, pair);
      process.TryClose(pair.write);
      process.TryClose(pair.read);
      assert process.fds == t - {pair.read, pair.write};
      pairs, nulls := pairs - PipesOf(src), nulls - NullsOf(src);
    }

    method UserPipeParent(me: nat, c: Command, ghost src: Source)
      requires Valid() && me in clients && c.userIn == !src.Absent?
      requires c.userIn ==>
        && c.inId >= 0 && (me, c.inId as nat) in pipesIn && Stored(pairs, nulls, src, pipesIn[(me, c.inId as nat)])
        && (match Outstanding(history, c.inId, me) case Some(p) => src == Real(p) case None => src.Null?)
      modifies this`pipesIn, this`history, this`pairs, this`nulls, record, process
      ensures Valid()
      ensures pairs == old(pairs) - PipesOf(src) && nulls == old(nulls) - NullsOf(src)
      ensures history == old(history) + if src.Real? then [Received(c.inId, me)] else []
      ensures forall i, j :: Outstanding(history, i, j) == if src.Real? && i == c.inId && j == me then None else Outstanding(old(history), i, j)
      ensures forall i: nat, j: nat :: i <= MAX_USER && j <= MAX_USER ==> record[i, j] == (old(record[i, j]) && !(c.userIn && i == c.inId && j == me))
    {
      hide Accounts, Outstanding, Protocol, NewPipes, Backed;
      assert pairs - {} == pairs && nulls - {} == nulls && history + [] == history;
      if c.userIn {
        var from: nat := c.inId;
        var pair := pipesIn[(me, from)];
        ghost var h := history;
        BackedAfterReceive(clients, pipesIn, pairs, h, pipesMade, from, me);
        if src.Real? { AppendReceived(h, from, me, pipesMade); }
        CloseStored(pair, src);
        pipesIn := pipesIn - {(me, from)};
        if from <= MAX_USER {
          record[from, me] := false;
        }
        if src.Real? { history := history + [Received(from, me)]; }
      }
    }

    // numbered_pipe_parent and pipe_parent close the pipes that the command has read.
    method CloseSpare(p: Option<OpenPipe>)
      requires Valid() && Spare(p)
      modifies this`pairs, process
      ensures Valid() && pairs == old(pairs) - Ids(p)
    {
      hide Accounts, Outstanding, Protocol, NewPipes;
      assert pairs - {} == pairs;
      if p.Some? {
        ghost var t := process.fds;
        SourceOpen(t, init, pairs, nulls, Real(p.value.id), p.value.pair);
        CloseAccounts(t, init, pairs, nulls, p.value.id);
        process.TryClose(p.value.pair.write);
        process.TryClose(p.value.pair.read);
        assert process.fds == t - {p.value.pair.read, p.value.pair.write};
        pairs := pairs - {p.value.id};
      }
    }

    // The child's table at exec: an ordinary pipe beats a numbered one, which beats a user pipe.
    ghost predicate Wires(t: Table, c: Command, left: Option<OpenPipe>, due: Option<OpenPipe>, src: Source,
            sink: Source, output: Option<nat>)
      requires Standard(init)
      requires ShellProcess.Writes(c) && c.pipeStderr ==> output.Some?
    {
      && Standard(t)
      && t[0] == (if left.Some? then ReadEnd(left.value.id)
                  else if due.Some? then ReadEnd(due.value.id)
                  else EndOf(src, true, init[0]))
      && t[1] == (if ShellProcess.Writes(c) && output.Some? then WriteEnd(output.value)
                  else if c.kind.Redirect? && c.fileName in writable then File(c.fileName)
                  else EndOf(sink, false, init[1]))
      && t[2] == if ShellProcess.Writes(c) && c.pipeStderr then WriteEnd(output.value) else init[2]
    }

    ghost predicate Apart(c: Command, pipeFd: FdPair, left: Option<OpenPipe>, due: Option<OpenPipe>, src: Source,
            sink: Source, output: Option<nat>)
      reads this`pairs
    {
      ApartIn(pairs, c, pipeFd, left, due, src, sink, output)
    }

    // user_pipe_in, user_pipe_out, numbered_pipe_child_in, pipe_child_in, in this order.
    method ChildPlugs(child: Process, c: Command, inPair: FdPair, outPair: FdPair, left: Option<OpenPipe>, due: Option<OpenPipe>,
                      ghost src: Source, ghost sink: Source)
      requires Books() && child != process && child.fds == process.fds
      requires Known(pairs, left) && Known(pairs, due)
      requires (c.userIn <==> !src.Absent?) && (c.userOut <==> !sink.Absent?) && (c.kind.Redirect? ==> !c.userOut)
      requires Ids(left) !! Ids(due) !! PipesOf(src) !! PipesOf(sink) && NullsOf(src) !! NullsOf(sink)
      requires Stored(pairs, nulls, src, inPair) && Stored(pairs, nulls, sink, outPair)
      modifies child
      ensures Standard(child.fds)
      ensures Accounts(child.fds, init, pairs - PipesOf(src) - PipesOf(sink) - Ids(due) - Ids(left), nulls - NullsOf(src) - NullsOf(sink))
      ensures child.fds[0] == (if left.Some? then ReadEnd(left.value.id) else if due.Some? then ReadEnd(due.value.id) else EndOf(src, true, init[0]))
      ensures child.fds[1] == EndOf(sink, false, init[1]) && child.fds[2] == init[2]
      ensures src.Null? ==> src.fd !in child.fds
    {
      hide Accounts;
      ghost var p1, n1 := pairs - PipesOf(src), nulls - NullsOf(src);
      UserPipeIn(child, c, inPair, init, pairs, nulls, src);
      if !c.kind.Redirect? {
        UserPipeOut(child, c, outPair, init, p1, n1, sink);
      } else {
        assert p1 - PipesOf(sink) == p1 && n1 - NullsOf(sink) == n1;
      }
      OrdinaryIn(child, due, init, p1 - PipesOf(sink), n1 - NullsOf(sink));
      OrdinaryIn(child, left, init, p1 - PipesOf(sink) - Ids(due), n1 - NullsOf(sink));
    }

    method StartChild(c: Command, inPair: FdPair, outPair: FdPair, pipeFd: FdPair, left: Option<OpenPipe>, due: Option<OpenPipe>,
                      ghost src: Source, ghost sink: Source, ghost output: Option<nat>)
      requires Books() && Apart(c, pipeFd, left, due, src, sink, output)
      requires Stored(pairs, nulls, src, inPair) && Stored(pairs, nulls, sink, outPair)
      requires c.kind.Redirect? ==> !c.userOut && !ShellProcess.Writes(c)
      modifies this`launched
      ensures |launched| == |old(launched)| + 1 && old(launched) <= launched
      ensures Wires(launched[|old(launched)|], c, left, due, src, sink, output)
    {
      hide Accounts, Known, SpareIn, Stored;
      ghost var p1, n1 := pairs - PipesOf(src) - PipesOf(sink) - Ids(due) - Ids(left), nulls - NullsOf(src) - NullsOf(sink);
      var child := new Process.Fork(process.fds);
      ChildPlugs(child, c, inPair, outPair, left, due, src, sink);
      if c.kind.Redirect? {
        ShellProcess.FileChildOut(child, c, writable);
      } else {
        KeepsOutput(c, pipeFd, left, due, src, sink, output, p1);
        hide Apart;
        OrdinaryOut(child, c, pipeFd, init, p1, n1, output);
      }
      launched := launched + [child.fds];
    }

    // The pipe to write is none of those plugged in before.
    lemma KeepsOutput(c: Command, pipeFd: FdPair, left: Option<OpenPipe>, due: Option<OpenPipe>, src: Source, sink: Source,
                      output: Option<nat>, rest: map<nat, FdPair>)
      requires Apart(c, pipeFd, left, due, src, sink, output)
      requires rest == pairs - PipesOf(src) - PipesOf(sink) - Ids(due) - Ids(left)
      ensures ShellProcess.Writes(c) && c.pipeStderr ==> output.Some?
      ensures ShellProcess.Writes(c) ==>
        if output.Some? then output.value in rest && rest[output.value] == pipeFd
        else src.Null? && pipeFd == FdPair(src.fd, src.fd)
    {
    }

    // What the user pipe arguments of c find: a waiting pipe, a free slot for a new one.
    ghost predicate Receives(me: nat, c: Command)
      reads this`history
    {
      c.userIn && c.inId >= 0 && Outstanding(history, c.inId, me).Some?
    }

    ghost predicate Sends(me: nat, c: Command)
      reads this`history, this`clients
    {
      c.userOut && c.outId >= 0 && c.outId as nat in clients && Outstanding(history, me, c.outId).None?
    }

    // The command is one that the parser makes and the executor can run as it is meant.
    ghost predicate Acceptable(me: nat, c: Command, left: Option<OpenPipe>, due: Option<OpenPipe>, target: Option<OpenPipe>)
      reads this`history, this`clients, this`pairs
    {
      && Coherent(c) && me in clients
      && c.pipeBefore == left.Some? && c.kind.NumberedPipe? == target.Some? && (due.Some? ==> left.None?)
      && Spare(left) && Spare(due) && Spare(target) && Ids(left) !! Ids(due) !! Ids(target)
      && (c.userIn ==> c.inId >= 0)
      && (c.userOut ==> c.kind.Pipe? && !c.pipeAfter)
      && (c.userIn && c.userOut && c.inId == me && c.outId == me ==> Outstanding(history, me, me).Some?)
      && (c.kind.Redirect? && c.userIn ==> Outstanding(history, c.inId, me).Some?)
    }

    method OrdinaryPipe() returns (p: OpenPipe)
      requires Valid()
      modifies this`pairs, this`pipesMade, process
      ensures Valid() && Spare(Some(p))
      ensures p.id == old(pipesMade) && p.id !in old(pairs)
      ensures pairs == old(pairs)[p.id := p.pair] && pipesMade == old(pipesMade) + 1
    {
      hide Accounts, Outstanding, Protocol, NewPipes;
      NewIsSpare(history, pipesMade);
      p := MakePipe();
    }

    ghost predicate Decided(me: nat, c: Command, left: Option<OpenPipe>, due: Option<OpenPipe>, target: Option<OpenPipe>,
                            made: nat, sends: bool, h: seq<Event>, ps: map<nat, FdPair>, ns: set<nat>,
                            next: Option<OpenPipe>, inPair: FdPair, outPair: FdPair, pipeFd: FdPair, src: Source, sink: Source, output: Option<nat>)
      reads this`history, this`pairs, this`nulls, this`pipesIn
    {
      DecidedIn(history, pairs, nulls, pipesIn, me, c, left, due, target, made, sends, h, ps, ns, next, inPair, outPair, pipeFd, src, sink, output)
    }

    lemma WaitingIsStored(me: nat, from: nat)
      requires Valid() && Outstanding(history, from, me).Some?
      ensures (me, from) in pipesIn && Outstanding(history, from, me).value in pairs
      ensures pairs[Outstanding(history, from, me).value] == pipesIn[(me, from)]
    {
    }

    // pairs only holds pipes made so far.
    lemma MadeBefore(p: Option<OpenPipe>)
      requires Valid() && Spare(p)
      ensures pipesMade !in Ids(p)
    {
    }

    // The first half of the checks for a command of type PIPE: its pipe to the right, and its sender.
    method CheckReceive(me: nat, c: Command)
      returns (next: Option<OpenPipe>, inPair: FdPair, pipeFd: FdPair, ghost src: Source, ghost output: Option<nat>)
      requires Valid() && me in clients && (c.userIn ==> c.inId >= 0)
      modifies this`pipesIn, this`pipesMade, this`pairs, this`nulls, process
      ensures Valid()
      ensures pipesMade >= old(pipesMade)
      ensures c.pipeAfter ==> next.Some? && next.value.id == old(pipesMade) && next.value.id !in old(pairs) && pipesMade == old(pipesMade) + 1
      ensures !c.pipeAfter ==> next.None? && pipesMade == old(pipesMade)
      ensures Spare(next) && pairs == if next.Some? then old(pairs)[next.value.id := next.value.pair] else old(pairs)
      ensures src == if !c.userIn then Absent else match Outstanding(history, c.inId, me) case Some(p) => Real(p) case None => Null(inPair.read)
      ensures Stored(pairs, nulls, src, inPair)
      ensures output == if c.pipeAfter && !src.Null? then Some(old(pipesMade)) else None
      ensures c.pipeAfter ==> pipeFd == if src.Null? then FdPair(src.fd, src.fd) else next.value.pair
      ensures c.userIn ==> (me, c.inId as nat) in pipesIn && pipesIn[(me, c.inId as nat)] == inPair
      ensures NullsOf(src) !! old(nulls) && nulls == old(nulls) + NullsOf(src)
    {
      hide Accounts, Outstanding, Protocol, NewPipes, Backed, Valid, Books;
      src, output, next := Absent, None, None;
      inPair, pipeFd := FdPair(0, 0), FdPair(0, 0);
      if c.pipeAfter {
        var p := OrdinaryPipe();
        next, pipeFd, output := Some(p), p.pair, Some(p.id);
      }
      if c.userIn {
        var missing;
        missing, inPair, src := CheckIn(me, c.inId);
        if missing {
          pipeFd, output := inPair, None;
        }
      }
    }

    lemma SpareIsOlder(p: Option<OpenPipe>)
      requires Valid() && Known(pairs, p)
      ensures pipesMade !in Ids(p)
      ensures p.None? ==> SpareIn(history, pairs, p)
    {
    }

    // The sending half, after the receiving half has been decided.
    method Send(me: nat, c: Command, left: Option<OpenPipe>, due: Option<OpenPipe>,
                ghost made: nat, ghost h: seq<Event>, ghost ps: map<nat, FdPair>, ghost ns: set<nat>,
                inPair: FdPair, pipeFd: FdPair, ghost src: Source)
      returns (outPair: FdPair, ghost sink: Source)
      requires Valid() && me in clients && c.kind.Pipe? && Coherent(c) && c.userOut && !c.pipeAfter
      requires c.userIn && c.inId == me && c.outId == me ==> Outstanding(history, me, me).Some?
      requires history == h && pairs.Keys == ps.Keys && pipesMade == made
      requires Decided(me, c.(userOut := false), left, due, None, made, false, h, ps, ns, None, inPair, FdPair(0, 0), pipeFd, src, Absent, None)
      modifies this`pipesIn, this`pipesOut, this`pipesMade, this`history, this`pairs, this`nulls, record, process
      ensures Valid()
      ensures pipesMade >= old(pipesMade)
      ensures Decided(me, c, left, due, None, made, old(Sends(me, c)), h, ps, ns, None, inPair, outPair, outPair, src, sink, None)
    {
      hide Accounts, Outstanding, Protocol, NewPipes, Backed, Valid, Books, SpareIn, ApartIn, Known, NullsGrow, DecidedIn, Sent;
      DecidedMeans(me, c, left, due, made, h, ps, ns, inPair, pipeFd, src);
      SpareIsOlder(left);
      SpareIsOlder(due);
      if src.Real? { WaitingIsOlder(me, c.inId); }
      ghost var sends, pairs0, nulls0, pipesIn0 := Sends(me, c), pairs, nulls, pipesIn;
      outPair, sink := CheckOut(me, c.outId);
      // The child goes by the table.
      outPair := pipesOut[me];
      SentDecided(h, pairs0, nulls0, pipesIn0, history, pairs, nulls, pipesIn, me, c, left, due, made, sends, ps, ns, inPair, outPair, pipeFd, src, sink);
    }

    // What the sending half needs of the receiving half.
    lemma DecidedMeans(me: nat, c: Command, left: Option<OpenPipe>, due: Option<OpenPipe>, made: nat, h: seq<Event>,
                       ps: map<nat, FdPair>, ns: set<nat>, inPair: FdPair, pipeFd: FdPair, src: Source)
      requires Decided(me, c.(userOut := false), left, due, None, made, false, h, ps, ns, None, inPair, FdPair(0, 0), pipeFd, src, Absent, None)
      ensures Known(pairs, left) && Known(pairs, due)
      ensures src.Real? ==> c.userIn && c.inId >= 0 && Outstanding(h, c.inId, me) == Some(src.id)
    {
      hide Outstanding;
    }

    lemma WaitingIsOlder(me: nat, from: nat)
      requires Valid() && Outstanding(history, from, me).Some?
      ensures Outstanding(history, from, me).value != pipesMade
    {
    }

    method CheckPipe(me: nat, c: Command, left: Option<OpenPipe>, due: Option<OpenPipe>, target: Option<OpenPipe>)
      returns (next: Option<OpenPipe>, inPair: FdPair, outPair: FdPair, pipeFd: FdPair, ghost src: Source, ghost sink: Source, ghost output: Option<nat>)
      requires Valid() && Acceptable(me, c, left, due, target) && c.kind.Pipe?
      modifies this`pipesIn, this`pipesOut, this`pipesMade, this`history, this`pairs, this`nulls, record, process
      ensures Valid()
      ensures pipesMade >= old(pipesMade)
      ensures Decided(me, c, left, due, target, old(pipesMade), old(Sends(me, c)), old(history), old(pairs), old(nulls),
                      next, inPair, outPair, pipeFd, src, sink, output)
    {
      hide Accounts, Outstanding, Protocol, NewPipes, Backed, Valid, Books, DecidedIn, SpareIn;
      MadeBefore(left);
      MadeBefore(due);
      if c.userIn && Outstanding(history, c.inId, me).Some? { WaitingIsOlder(me, c.inId); }
      ghost var made, h, ps, ns := pipesMade, history, pairs, nulls;
      sink, outPair := Absent, FdPair(0, 0);
      next, inPair, pipeFd, src, output := CheckReceive(me, c);
      ReceivedDecided(h, pairs, nulls, pipesIn, me, c.(userOut := false), left, due, target, made, ps, ns, next, inPair, pipeFd, src, output);
      if c.userOut {
        outPair, sink := Send(me, c, left, due, made, h, ps, ns, inPair, pipeFd, src);
        pipeFd := outPair;
      }
    }

    method CheckOther(me: nat, c: Command, left: Option<OpenPipe>, due: Option<OpenPipe>, target: Option<OpenPipe>)
      returns (next: Option<OpenPipe>, inPair: FdPair, outPair: FdPair, pipeFd: FdPair, ghost src: Source, ghost sink: Source, ghost output: Option<nat>)
      requires Valid() && Acceptable(me, c, left, due, target) && !c.kind.Pipe?
      modifies this`pipesIn, this`pipesOut, this`pipesMade, this`history, this`pairs, this`nulls, record, process
      ensures Valid()
      ensures pipesMade >= old(pipesMade)
      ensures Decided(me, c, left, due, target, old(pipesMade), old(Sends(me, c)), old(history), old(pairs), old(nulls),
                      next, inPair, outPair, pipeFd, src, sink, output)
    {
      hide Accounts, Outstanding, Protocol, NewPipes, Backed, Valid, Books;
      src, sink, output, next := Absent, Absent, None, None;
      inPair, outPair, pipeFd := FdPair(0, 0), FdPair(0, 0), FdPair(0, 0);
      if c.kind.NumberedPipe? {
        if c.userIn {
          var missing;
          missing, inPair, src := CheckIn(me, c.inId);
        }
        pipeFd, output := target.value.pair, Some(target.value.id);
      } else if c.userIn {
        WaitingIsStored(me, c.inId);
        inPair := pipesIn[(me, c.inId as nat)];
        src := Real(Outstanding(history, c.inId, me).value);
      }
    }

    // The checks before the fork, by the command's type. A failed receiving check of a PIPE command
    // overwrites pipe_fd, which was to hold the pipe to the right neighbour.
    method Check(me: nat, c: Command, left: Option<OpenPipe>, due: Option<OpenPipe>, target: Option<OpenPipe>)
      returns (next: Option<OpenPipe>, inPair: FdPair, outPair: FdPair, pipeFd: FdPair, ghost src: Source, ghost sink: Source, ghost output: Option<nat>)
      requires Valid() && Acceptable(me, c, left, due, target)
      modifies this`pipesIn, this`pipesOut, this`pipesMade, this`history, this`pairs, this`nulls, record, process
      ensures Valid()
      ensures pipesMade >= old(pipesMade)
      ensures Decided(me, c, left, due, target, old(pipesMade), old(Sends(me, c)), old(history), old(pairs), old(nulls),
                      next, inPair, outPair, pipeFd, src, sink, output)
    {
      hide Accounts, Outstanding, Valid, Acceptable, Decided;
      if c.kind.Pipe? {
        next, inPair, outPair, pipeFd, src, sink, output := CheckPipe(me, c, left, due, target);
      } else {
        next, inPair, outPair, pipeFd, src, sink, output := CheckOther(me, c, left, due, target);
      }
    }

    lemma KeepsBooks()
      requires Valid()
      ensures Books()
    {
    }

    lemma StillSpare(p: Option<OpenPipe>, h: seq<Event>, ps: map<nat, FdPair>, gone: set<nat>)
      requires SpareIn(h, ps, p) && pairs == ps - gone && Ids(p) !! gone
      requires forall i, j :: Outstanding(history, i, j) == None || Outstanding(history, i, j) == Outstanding(h, i, j)
      ensures SpareIn(history, pairs, p)
    {
    }

    // What the launched process reads and writes. A receiver with no ordinary or numbered pipe reads
    // the pipe that waited for it, or /dev/null; a command before `|` writes its neighbour's pipe
    // exactly when its own receiving check did not fail, and otherwise keeps the inherited output.
    ghost predicate Ran(c: Command, left: Option<OpenPipe>, due: Option<OpenPipe>, target: Option<OpenPipe>,
                        made: nat, waiting: Option<nat>, sends: bool, t: Table)
      requires Standard(init) && c.kind.NumberedPipe? == target.Some?
    {
      && Standard(t)
      && t[0] == (if left.Some? then ReadEnd(left.value.id)
                  else if due.Some? then ReadEnd(due.value.id)
                  else if !c.userIn then init[0]
                  else match waiting case Some(p) => ReadEnd(p) case None => DevNull)
      && t[1] == (match c.kind
                  case NumberedPipe => WriteEnd(target.value.id)
                  case Redirect => if c.fileName in writable then File(c.fileName) else init[1]
                  case Pipe =>
                    if c.pipeAfter then if c.userIn && waiting.None? then init[1] else WriteEnd(made)
                    else if !c.userOut then init[1]
                    else if sends then WriteEnd(made)
                    else DevNull)
      && t[2] == if c.pipeStderr then t[1] else init[2]
    }

    // The parent after the fork: user_pipe_parent, numbered_pipe_parent, pipe_parent.
    method Parent(me: nat, c: Command, left: Option<OpenPipe>, due: Option<OpenPipe>, ghost src: Source,
            ghost next: Option<OpenPipe>)
      requires Valid() && me in clients && c.userIn == !src.Absent?
      requires c.userIn ==>
        && c.inId >= 0 && (me, c.inId as nat) in pipesIn && Stored(pairs, nulls, src, pipesIn[(me, c.inId as nat)])
        && (match Outstanding(history, c.inId, me) case Some(p) => src == Real(p) case None => src.Null?)
      requires SpareIn(history, pairs, left) && SpareIn(history, pairs, due) && SpareIn(history, pairs, next)
      requires AllApart(Ids(left), Ids(due), PipesOf(src), Ids(next), {})
      modifies this`pipesIn, this`history, this`pairs, this`nulls, record, process
      ensures Valid() && SpareIn(history, pairs, next)
      ensures pairs == old(pairs) - PipesOf(src) - Ids(due) - Ids(left) && nulls == old(nulls) - NullsOf(src)
      ensures history == old(history) + if src.Real? then [Received(c.inId, me)] else []
    {
      hide Accounts, Outstanding, Protocol, NewPipes, Backed, Valid, Books, SpareIn;
      ghost var h, ps := history, pairs;
      UserPipeParent(me, c, src);
      StillSpare(left, h, ps, PipesOf(src));
      StillSpare(due, h, ps, PipesOf(src));
      StillSpare(next, h, ps, PipesOf(src));
      ghost var ps1 := pairs;
      CloseSpare(due);
      StillSpare(left, history, ps1, Ids(due));
      StillSpare(next, history, ps1, Ids(due));
      ghost var ps2 := pairs;
      CloseSpare(left);
      StillSpare(next, history, ps2, Ids(left));
    }

    lemma WiresIsRan(me: nat, c: Command, left: Option<OpenPipe>, due: Option<OpenPipe>, target: Option<OpenPipe>,
                     made: nat, sends: bool, h: seq<Event>, ps: map<nat, FdPair>, ns: set<nat>,
                     next: Option<OpenPipe>, inPair: FdPair, outPair: FdPair, pipeFd: FdPair, src: Source, sink: Source, output: Option<nat>, t: Table)
      requires Standard(init) && Coherent(c) && c.kind.NumberedPipe? == target.Some? && (c.userOut ==> c.kind.Pipe? && !c.pipeAfter)
      requires Decided(me, c, left, due, target, made, sends, h, ps, ns, next, inPair, outPair, pipeFd, src, sink, output)
      requires Wires(t, c, left, due, src, sink, output)
      ensures Ran(c, left, due, target, made, if c.userIn then Outstanding(h, c.inId, me) else None, sends, t)
    {
      hide Outstanding, Accounts, SpareIn;
    }

    lemma NewIsApart(me: nat, c: Command, left: Option<OpenPipe>, due: Option<OpenPipe>)
      requires Valid() && Spare(left) && Spare(due)
      ensures pipesMade !in Ids(left) + Ids(due)
      ensures c.userIn && c.inId >= 0 ==> Outstanding(history, c.inId, me) != Some(pipesMade)
    {
    }

    lemma TakeBack(ns: set<nat>, a: set<nat>, b: set<nat>)
      requires a !! ns && a !! b
      ensures ns + a + b - a == ns + b
    {
    }

    // The checks and the child.
    method Launch(me: nat, c: Command, left: Option<OpenPipe>, due: Option<OpenPipe>, target: Option<OpenPipe>)
      returns (next: Option<OpenPipe>, inPair: FdPair, ghost src: Source, ghost leaked: Option<nat>)
      requires Valid() && Acceptable(me, c, left, due, target)
      modifies this`pipesIn, this`pipesOut, this`pipesMade, this`history, this`pairs, this`nulls, this`launched, record, process
      ensures Valid()
      ensures pipesMade >= old(pipesMade)
      ensures |launched| == |old(launched)| + 1 && old(launched) <= launched
      ensures src == if !c.userIn then Absent else match Outstanding(old(history), c.inId, me) case Some(p) => Real(p) case None => Null(inPair.read)
      ensures c.userIn ==> (me, c.inId as nat) in pipesIn && pipesIn[(me, c.inId as nat)] == inPair
      ensures c.userIn ==> Stored(pairs, nulls, src, inPair) && Outstanding(history, c.inId, me) == Outstanding(old(history), c.inId, me)
      ensures Spare(left) && Spare(due) && Spare(next) && AllApart(Ids(left), Ids(due), PipesOf(src), Ids(next), {})
      ensures next.Some? == c.pipeAfter && (next.Some? ==> next.value.id == old(pipesMade))
      ensures history == old(history) + if old(Sends(me, c)) then [Piped(me, c.outId, old(pipesMade))] else []
      ensures pairs.Keys == old(pairs.Keys) + (if c.pipeAfter || old(Sends(me, c)) then {old(pipesMade)} else {})
      ensures SamePlaces(old(pairs), pairs)
      ensures nulls - NullsOf(src) == old(nulls) + ToSet(leaked)
      ensures leaked.Some? == (c.userOut && !old(Sends(me, c))) && (leaked.Some? ==> leaked.value !in old(nulls))
      ensures Ran(c, left, due, target, old(pipesMade), if c.userIn then Outstanding(old(history), c.inId, me) else None, old(Sends(me, c)), launched[|old(launched)|])
    {
      hide Accounts, Outstanding, Protocol, NewPipes, Backed, Valid, Books, SpareIn, Ran, Wires, ApartIn, AllApart, SamePlaces, Stored;
      var outPair, pipeFd;
      ghost var sink, output;
      NewIsApart(me, c, left, due);
      ghost var made, sends, h, ps, ns, tables := pipesMade, Sends(me, c), history, pairs, nulls, launched;
      next, inPair, outPair, pipeFd, src, sink, output := Check(me, c, left, due, target);
      KeepsBooks();
      StartChild(c, inPair, outPair, pipeFd, left, due, src, sink, output);
      WiresIsRan(me, c, left, due, target, made, sends, h, ps, ns, next, inPair, outPair, pipeFd, src, sink, output, launched[|tables|]);
      NextIsApart(pairs, c, pipeFd, left, due, src, sink, output, next);
      leaked := if sink.Null? then Some(sink.fd) else None;
      TakeBack(ns, NullsOf(src), NullsOf(sink));
      assert ToSet(leaked) == NullsOf(sink);
    }

    // One command of a line: checks, fork, child, parent. The pipe to the right neighbour comes back
    // as `next`. A received pipe is closed in the server; a failed send leaves a descriptor behind.
    method ExecuteCommand(me: nat, c: Command, left: Option<OpenPipe>, due: Option<OpenPipe>, target: Option<OpenPipe>)
      returns (next: Option<OpenPipe>, ghost leaked: Option<nat>)
      requires Valid() && Acceptable(me, c, left, due, target)
      modifies this`pipesIn, this`pipesOut, this`pipesMade, this`history, this`pairs, this`nulls, this`launched, record, process
      ensures Valid()
      ensures pipesMade >= old(pipesMade)
      ensures next.Some? == c.pipeAfter && Spare(next) && (next.Some? ==> next.value.id == old(pipesMade))
      ensures |launched| == |old(launched)| + 1 && old(launched) <= launched
      ensures Ran(c, left, due, target, old(pipesMade), if c.userIn then Outstanding(old(history), c.inId, me) else None, old(Sends(me, c)), launched[|old(launched)|])
      ensures history == old(history)
                         + (if old(Sends(me, c)) then [Piped(me, c.outId, old(pipesMade))] else [])
                         + (if old(Receives(me, c)) then [Received(c.inId, me)] else [])
      ensures pairs.Keys == old(pairs.Keys) + (if c.pipeAfter || old(Sends(me, c)) then {old(pipesMade)} else {})
                            - Ids(left) - Ids(due) - (if old(Receives(me, c)) then {Outstanding(old(history), c.inId, me).value} else {})
      ensures SamePlaces(old(pairs), pairs)
      ensures nulls == old(nulls) + ToSet(leaked)
      ensures leaked.Some? == (c.userOut && !old(Sends(me, c))) && (leaked.Some? ==> leaked.value !in old(nulls))
    {
      hide Accounts, Outstanding, Protocol, NewPipes, Backed, Valid, Books, SpareIn, Ran, AllApart;
      var inPair;
      ghost var src;
      next, inPair, src, leaked := Launch(me, c, left, due, target);
      Parent(me, c, left, due, src, next);
    }
  }

  lemma FirstSlots(none: set<nat>, first: nat, one: set<nat>, second: nat)
    requires none == {} && one == {first} && NewSlot(first, none) && NewSlot(second, one)
    ensures first == 1 && second == 2
  {
    assert 1 !in none && 2 !in none;
    assert first == 1;
    assert 2 !in one && 3 !in one;
  }

  lemma FirstSlot(none: set<nat>, first: nat)
    requires none == {} && NewSlot(first, none)
    ensures first == 1
  {
    assert 1 !in none;
  }

  lemma RecordedSend(server: Server, p: nat, to: nat)
    requires server.Valid() && server.history == [Piped(1, to, p)] && to <= MAX_USER
    ensures server.record.Length0 == server.record.Length1 == MAX_USER + 1
    ensures forall i: nat, j: nat :: i <= MAX_USER && j <= MAX_USER ==> server.record[i, j] == (i == 1 && j == to)
  {
    hide Accounts;
    Appended([], Piped(1, to, p));
    assert [] + [Piped(1, to, p)] == [Piped(1, to, p)];
    NothingWaits();
    assert forall i, j :: Outstanding([Piped(1, to, p)], i, j) == if i == 1 && j == to then Some(p) else None;
  }

  // A server in which user 1 has just sent user `to` a pipe. User 2 is there too, if that is `to`.
  method AfterSend(process: Process, writable: set<string>, to: nat) returns (server: Server, ghost p: nat)
    requires Standard(process.fds) && 1 <= to <= 2
    requires forall f :: f in process.fds ==> process.fds[f].Inherited?
    modifies process
    ensures fresh(server) && fresh(server.record) && server.process == process
    ensures server.Valid() && server.clients.Keys == {1, to}
    ensures server.history == [Piped(1, to, p)]
  {
    hide Accounts, Outstanding, Server.Valid, Server.Ran, NewSlot;
    server := new Server(process, writable);
    ghost var none := server.clients.Keys;
    var first := server.Login();
    ghost var one := server.clients.Keys;
    assert one == {first};
    if to == 2 {
      var second := server.Login();
      FirstSlots(none, first, one, second);
    } else {
      FirstSlot(none, first);
    }
    var c := PlainCommand(["cat"], false, false, false).(userOut := true, outId := to);
    NothingWaits();
    p := server.pipesMade;
    var next, leaked := server.ExecuteCommand(1, c, None, None, None);
  }

  // A stale record is within reach: user 1 sends user 2 a pipe, and the connection of user 1 ends.
  method StaleRecord(process: Process, writable: set<string>) returns (server: Server)
    requires Standard(process.fds)
    requires forall f :: f in process.fds ==> process.fds[f].Inherited?
    modifies process
    ensures 1 !in server.clients && !server.Valid()
    ensures server.record.Length0 == server.record.Length1 == MAX_USER + 1 && server.record[1, 2]
  {
    hide Accounts, Outstanding, Server.Valid, Server.Ran;
    ghost var p;
    server, p := AfterSend(process, writable, 2);
    RecordedSend(server, p, 2);
    assert server.record[1, 2];
    server.Disconnect(1);
  }

  // A pipe from user 1 to user 1 does no harm: the loop clears just that entry.
  method LonePipe(process: Process, writable: set<string>) returns (server: Server, ghost p: nat)
    requires Standard(process.fds)
    requires forall f :: f in process.fds ==> process.fds[f].Inherited?
    modifies process
    ensures server.Valid() && 1 !in server.clients && server.history == [Piped(1, 1, p), Left(1)]
  {
    hide Accounts, Outstanding, Server.Valid, Server.Ran;
    server, p := AfterSend(process, writable, 1);
    RecordedSend(server, p, 1);
    server.Disconnect(1);
  }

  lemma NothingWaits()
    ensures forall i, j :: Outstanding([], i, j) == None
  {
  }

  lemma Appended(h: seq<Event>, e: Event)
    ensures Last(h + [e]) == e && Init(h + [e]) == h
  {
  }

  lemma AppendLeft(h: seq<Event>, me: nat, bound: nat)
    requires Protocol(h) && NewPipes(h, bound)
    ensures Protocol(h + [Left(me)]) && NewPipes(h + [Left(me)], bound)
    ensures forall i, j :: Outstanding(h + [Left(me)], i, j) == if i == me || j == me then None else Outstanding(h, i, j)
  {
    Appended(h, Left(me));
  }

  lemma AppendPiped(h: seq<Event>, i: nat, j: nat, p: nat)
    requires Protocol(h) && NewPipes(h, p) && Outstanding(h, i, j) == None
    ensures Protocol(h + [Piped(i, j, p)]) && NewPipes(h + [Piped(i, j, p)], p + 1)
    ensures forall a, b :: Outstanding(h + [Piped(i, j, p)], a, b) == if a == i && b == j then Some(p) else Outstanding(h, a, b)
  {
    Appended(h, Piped(i, j, p));
  }

  lemma OnePiped(h: seq<Event>, i: nat, j: nat, p: nat)
    ensures forall a, b :: Outstanding(h + [Piped(i, j, p)], a, b) == if a == i && b == j then Some(p) else Outstanding(h, a, b)
  {
    Appended(h, Piped(i, j, p));
  }

  lemma BackedAfterSend(clients: map<nat, string>, pipesIn: map<(nat, nat), FdPair>, pairs: map<nat, FdPair>, h: seq<Event>,
                        i: nat, j: nat, p: OpenPipe)
    requires Backed(clients, pipesIn, pairs, h) && i in clients && j in clients && p.id !in pairs
    ensures Backed(clients, pipesIn[(j, i) := p.pair], pairs[p.id := p.pair], h + [Piped(i, j, p.id)])
  {
    OnePiped(h, i, j, p.id);
    hide Outstanding;
  }

  lemma AppendReceived(h: seq<Event>, i: nat, j: nat, bound: nat)
    requires Protocol(h) && NewPipes(h, bound) && Outstanding(h, i, j).Some?
    ensures Protocol(h + [Received(i, j)]) && NewPipes(h + [Received(i, j)], bound)
    ensures forall a, b :: Outstanding(h + [Received(i, j)], a, b) == if a == i && b == j then None else Outstanding(h, a, b)
  {
    Appended(h, Received(i, j));
  }

  lemma NullIsNew(t: Table, base: Table, pairs: map<nat, FdPair>, nulls: set<nat>, f: nat)
    requires Accounts(t, base, pairs, nulls) && f !in t
    ensures f !in nulls
  {
  }

  lemma OthersWait(h: seq<Event>, bound: nat, i: nat, j: nat)
    requires NewPipes(h, bound) && Outstanding(h, i, j).Some?
    ensures forall a, b :: Outstanding(h, a, b) == Outstanding(h, i, j) ==> a == i && b == j
  {
    forall a, b | Outstanding(h, a, b) == Outstanding(h, i, j) ensures a == i && b == j {
      OutstandingDiffer(h, bound, i, j, a, b);
    }
  }

  lemma BackedAfterReceive(clients: map<nat, string>, pipesIn: map<(nat, nat), FdPair>, pairs: map<nat, FdPair>,
          h: seq<Event>, bound: nat, i: nat, j: nat)
    requires Backed(clients, pipesIn, pairs, h) && Protocol(h) && NewPipes(h, bound)
    ensures match Outstanding(h, i, j)
      case Some(p) => Backed(clients, pipesIn - {(j, i)}, pairs - {p}, h + [Received(i, j)])
      case None => Backed(clients, pipesIn - {(j, i)}, pairs, h)
  {
    hide Outstanding, Protocol, NewPipes;
    if Outstanding(h, i, j).Some? {
      OthersWait(h, bound, i, j);
      AppendReceived(h, i, j, bound);
    }
  }

  lemma NewIsSpare(h: seq<Event>, bound: nat)
    requires NewPipes(h, bound)
    ensures NewPipes(h, bound + 1)
    ensures forall i, j :: Outstanding(h, i, j) != Some(bound)
  {
    NewPipesGrow(h, bound, bound + 1);
    forall i, j ensures Outstanding(h, i, j) != Some(bound) {
      if Outstanding(h, i, j).Some? { OutstandingBelow(h, bound, i, j); }
    }
  }
}
