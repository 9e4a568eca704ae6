/** The shell at the level of its system calls: it opens, copies and closes descriptors in itself and
    in its children, and is proved to be the abstract machine of `Engine`. */
module ShellProcess {
  import opened Outcomes
  import opened Commands
  import opened Engine
  import opened Wiring
  import opened Descriptors

  // ----- The unsigned line counter ----------------------------------------------------------------

  // Pending lines lie less than 2^31 ahead, so the 32-bit keys tell them apart even after wrap-around.
  ghost predicate Slots<T>(line: nat, pending: map<nat, nat>, pairs: map<nat, T>, numbered: map<nat, T>) {
    && (forall L :: L in pending ==>
          && line <= L <= line + INT_MAX
          && pending[L] in pairs
          && Wrap(L) in numbered
          && numbered[Wrap(L)] == pairs[pending[L]])
    && (forall k :: k in numbered ==> Occupied(pending, k))
  }

  ghost predicate Occupied(pending: map<nat, nat>, k: nat) {
    exists L :: L in pending && Wrap(L) == k
  }

  lemma SlotsDiffer(line: nat, L: nat, M: nat)
    requires line <= L <= line + INT_MAX && line <= M <= line + INT_MAX
    ensures Wrap(L) == Wrap(M) <==> L == M
  {
  }

  lemma WrapAdds(line: nat, n: nat)
    ensures Wrap(Wrap(line) + n) == Wrap(line + n)
  {
  }

  lemma SlotLookup<T>(line: nat, pending: map<nat, nat>, pairs: map<nat, T>, numbered: map<nat, T>, L: nat)
    requires Slots(line, pending, pairs, numbered) && line <= L <= line + INT_MAX
    ensures Wrap(L) in numbered <==> L in pending
    ensures L in pending ==> pending[L] in pairs && numbered[Wrap(L)] == pairs[pending[L]]
  {
    if Wrap(L) in numbered {
      var M :| M in pending && Wrap(M) == Wrap(L);
      SlotsDiffer(line, L, M);
    }
  }

  lemma SlotInsert<T>(line: nat, pending: map<nat, nat>, pairs: map<nat, T>, numbered: map<nat, T>, L: nat, p: nat, pair: T)
    requires Slots(line, pending, pairs, numbered) && line <= L <= line + INT_MAX && p !in pairs
    ensures Slots(line, pending[L := p], pairs[p := pair], numbered[Wrap(L) := pair])
  {
    var more := numbered[Wrap(L) := pair];
    forall M | M in pending && M != L ensures Wrap(M) in more && more[Wrap(M)] == pairs[pending[M]] {
      SlotsDiffer(line, L, M);
    }
    forall k | k in more ensures Occupied(pending[L := p], k) {
      if k == Wrap(L) {
        assert L in pending[L := p];
      } else {
        var M :| M in pending && Wrap(M) == k;
        assert M in pending[L := p];
      }
    }
  }

  lemma SlotErase<T>(line: nat, pending: map<nat, nat>, pairs: map<nat, T>, numbered: map<nat, T>, gone: set<nat>, next: nat)
    requires Slots(line, pending, pairs, numbered)
    requires forall L :: L in pending && L != line ==> pending[L] !in gone
    requires line <= next <= line + 1
    ensures Slots(next, pending - {line}, pairs - gone, numbered - {Wrap(line)})
  {
    forall L | L in pending && L != line ensures Wrap(L) != Wrap(line) { SlotsDiffer(line, L, line); }
    forall k | k in numbered && k != Wrap(line) ensures Occupied(pending - {line}, k) {
      var L :| L in pending && Wrap(L) == k;
      assert L in pending - {line};
    }
  }

  // ----- What a child does before exec --------------------------------------------------------------

  predicate ReadsNumbered(c: Command) {
    c.numberedBefore || (!c.pipeBefore && !c.numberedBefore)
  }

  predicate Writes(c: Command) {
    c.pipeAfter || c.numberedAfter
  }

  predicate Usable(t: Table, pair: FdPair) {
    pair.read in t && pair.write in t && pair.read != pair.write && pair.read > 2 && pair.write > 2
  }

  method NumberedPipeChildIn(child: Process, c: Command, numberedPipes: map<nat, FdPair>, lineCount: nat)
    requires lineCount in numberedPipes && ReadsNumbered(c) ==> Usable(child.fds, numberedPipes[lineCount])
    modifies child
    ensures child.fds == if lineCount in numberedPipes && ReadsNumbered(c) then InputFrom(old(child.fds), numberedPipes[lineCount]) else old(child.fds)
  {
    if c.numberedBefore || (!c.pipeBefore && !c.numberedBefore) {
      if lineCount in numberedPipes {
        var pipeFd := numberedPipes[lineCount];
        child.Close(pipeFd.write);
        child.Dup2(pipeFd.read, 0);
        child.Close(pipeFd.read);
      }
    }
  }

  method PipeChildIn(child: Process, c: Command, pipeInFd: FdPair)
    requires c.pipeBefore ==> Usable(child.fds, pipeInFd)
    modifies child
    ensures child.fds == if c.pipeBefore then InputFrom(old(child.fds), pipeInFd) else old(child.fds)
  {
    if c.pipeBefore {
      child.Close(pipeInFd.write);
      child.Dup2(pipeInFd.read, 0);
      child.Close(pipeInFd.read);
    }
  }

  method PipeChildOut(child: Process, c: Command, pipeFd: FdPair)
    requires Writes(c) ==> Usable(child.fds, pipeFd)
    modifies child
    ensures child.fds == if Writes(c) then OutputTo(old(child.fds), pipeFd, c.pipeStderr) else old(child.fds)
  {
    if c.pipeAfter || c.numberedAfter {
      if c.pipeStderr {
        child.Dup2(pipeFd.write, 2);
      }
      child.Close(pipeFd.read);
      child.Dup2(pipeFd.write, 1);
      child.Close(pipeFd.write);
    }
  }

  // open for writing and dup2 onto standard output; when the open fails dup2 fails too.
  method FileChildOut(child: Process, c: Command, writable: set<string>)
    requires Standard(child.fds)
    modifies child
    ensures c.fileName !in writable ==> child.fds == old(child.fds)
    ensures c.fileName in writable ==>
      && Standard(child.fds)
      && child.fds[0] == old(child.fds)[0] && child.fds[1] == File(c.fileName) && child.fds[2] == old(child.fds)[2]
      && Rest(child.fds) == Rest(old(child.fds)) + {File(c.fileName)}
  {
    if c.fileName in writable {
      ghost var t := child.fds;
      var fd := child.Open(File(c.fileName));
      child.Dup2(fd, 1);
      assert child.fds[fd] == File(c.fileName);
      forall e | e in Rest(t) ensures e in Rest(child.fds) {
        var f :| f in t && f > 2 && t[f] == e;
        assert child.fds[f] == e;
      }
    }
  }

  // ----- The shell -----------------------------------------------------------------------------------

  // A table at exec is the abstract process: same standard descriptors, same holdings above them.
  ghost predicate Matches(t: Table, p: Proc) {
    && Standard(t)
    && t[0] == p.stdin && t[1] == p.stdout && t[2] == p.stderr
    && Rest(t) == p.others
  }

  ghost predicate AllMatch(ts: seq<Table>, ps: seq<Proc>) {
    && |ts| == |ps|
    && (forall k :: 0 <= k < |ts| ==> Matches(ts[k], ps[k]))
  }

  lemma OneMoreMatches(ts: seq<Table>, ps: seq<Proc>, t: Table, p: Proc)
    requires AllMatch(ts, ps) && Matches(t, p)
    ensures AllMatch(ts + [t], ps + [p])
  {
  }

  // `pair` is where the shell holds the pipe `id`, when there is one.
  ghost predicate Names<T>(pairs: map<nat, T>, id: Option<nat>, pair: T) {
    id.Some? ==> id.value in pairs && pairs[id.value] == pair
  }

  // The pipe that must be delivered to the current line.
  function DuePipe(s: Session): Option<nat> {
    if s.line in s.pending then Some(s.pending[s.line]) else None
  }

  function AtFork(s: Session, c: Command): set<nat> {
    PendingAtFork(s, c).Values + ToSet(s.left) + ToSet(OutPipe(s, c))
  }

  // The neighbour's pipe, the due pipe and the pipe to write are different pipes.
  lemma PipesDiffer(s: Session, c: Command)
    requires Separate(s) && Coherent(c)
    ensures s.line in s.pending ==> PendingAtFork(s, c)[s.line] == s.pending[s.line]
    ensures s.left.Some? ==> s.left != DuePipe(s) && s.left != OutPipe(s, c)
    ensures DuePipe(s).Some? ==> DuePipe(s) != OutPipe(s, c)
    ensures forall L :: L in PendingAtFork(s, c) && L != s.line ==> PendingAtFork(s, c)[L] !in ToSet(s.left) + ToSet(DuePipe(s))
  {
    assert forall L :: L in s.pending ==> s.pending[L] in OpenPipes(s);
    assert forall L :: L in PendingAtFork(s, c) ==> PendingAtFork(s, c)[L] == s.pipes || (L in s.pending && PendingAtFork(s, c)[L] == s.pending[L]);
  }

  lemma ValuesWithout(m: map<nat, nat>, k: nat)
    requires forall i, j :: i in m && j in m && m[i] == m[j] ==> i == j
    ensures (m - {k}).Values == if k in m then m.Values - {m[k]} else m.Values
  {
    forall v | v in m.Values && (k in m ==> v != m[k]) ensures v in (m - {k}).Values {
      var i :| i in m && m[i] == v;
      assert (m - {k})[i] == v;
    }
  }

  lemma PendingInjective(s: Session, c: Command)
    requires Separate(s) && Coherent(c)
    ensures forall L, M :: L in PendingAtFork(s, c) && M in PendingAtFork(s, c) && PendingAtFork(s, c)[L] == PendingAtFork(s, c)[M] ==> L == M
    ensures s.left.Some? ==> s.left.value !in PendingAtFork(s, c).Values
    ensures c.numberedAfter ==> OutPipe(s, c).value in PendingAtFork(s, c).Values
  {
    assert forall L :: L in s.pending ==> s.pending[L] in OpenPipes(s);
    if c.numberedAfter { assert PendingAtFork(s, c)[Target(s, c)] == OutPipe(s, c).value; }
  }

  // Fork, then drop the neighbour's pipe and the due pipe: that is one step of the session.
  lemma StepClosesInputs(h: Host, s: Session, c: Command)
    requires Separate(s) && Coherent(c) && c.pipeBefore == s.left.Some?
    ensures OpenPipes(Step(h, s, c)) == AtFork(s, c) - (ToSet(s.left) + ToSet(DuePipe(s)))
  {
    PipesDiffer(s, c);
    PendingInjective(s, c);
    ValuesWithout(PendingAtFork(s, c), s.line);
    assert s.line in PendingAtFork(s, c) <==> s.line in s.pending;
    assert ToSet(DuePipe(s)) == if s.line in s.pending then {s.pending[s.line]} else {};
  }

  lemma StepState<T>(h: Host, s: Session, c: Command, pairs: map<nat, T>, numbered: map<nat, T>)
    requires NoPipes(h) && Separate(s) && Coherent(c) && c.pipeBefore == s.left.Some?
    requires pairs.Keys == AtFork(s, c) && Slots(s.line, PendingAtFork(s, c), pairs, numbered)
    ensures var t, rest := Step(h, s, c), pairs - (ToSet(s.left) + ToSet(DuePipe(s)));
      && Separate(t)
      && rest.Keys == OpenPipes(t)
      && Slots(t.line, t.pending, rest, numbered - {Wrap(s.line)})
  {
    var gone := ToSet(s.left) + ToSet(DuePipe(s));
    assert (pairs - gone).Keys == pairs.Keys - gone;
    StepClosesInputs(h, s, c);
    PipesDiffer(s, c);
    SlotErase(s.line, PendingAtFork(s, c), pairs, numbered, gone, Step(h, s, c).line);
    StepSeparate(h, s, c);
  }

  lemma LaunchShape(h: Host, s: Session, c: Command)
    requires Separate(s) && Coherent(c) && c.pipeBefore == s.left.Some?
    ensures Launch(h, s, c) == Spawn(h, if c.pipeBefore then s.left else DuePipe(s), OutPipe(s, c), c.pipeStderr, OutFile(h, c),
                                     AtFork(s, c) - ToSet(if c.pipeBefore then s.left else DuePipe(s)) - ToSet(OutPipe(s, c)))
  {
    assert Leftover(s, c) == AtFork(s, c) - ToSet(InPipe(s, c)) - ToSet(OutPipe(s, c));
  }

  // Before the fork a command has either added one new pipe or none.
  lemma AtForkIs(s: Session, c: Command)
    requires Separate(s) && Coherent(c)
    ensures s.pipes !in OpenPipes(s)
    ensures OutPipe(s, c) != Some(s.pipes) ==> AtFork(s, c) == OpenPipes(s) && PendingAtFork(s, c) == s.pending
    ensures OutPipe(s, c) == Some(s.pipes) ==> AtFork(s, c) == OpenPipes(s) + {s.pipes}
    ensures c.numberedAfter ==> (OutPipe(s, c) == Some(s.pipes) <==> Target(s, c) !in s.pending)
  {
    assert forall L :: L in s.pending ==> s.pending[L] in OpenPipes(s);
    var L := Target(s, c);
    if c.numberedAfter && L !in s.pending {
      forall p | p in s.pending.Values ensures p in PendingAtFork(s, c).Values {
        var M :| M in s.pending && s.pending[M] == p;
        assert PendingAtFork(s, c)[M] == p;
      }
      assert PendingAtFork(s, c)[L] == s.pipes;
    }
    if c.numberedAfter && L in s.pending {
      assert s.pending[L := s.pending[L]] == s.pending;
    }
  }

  // Where the 32-bit target of a numbered pipe is found.
  lemma TargetSlot<T>(s: Session, c: Command, pairs: map<nat, T>, numbered: map<nat, T>)
    requires Coherent(c) && c.kind.NumberedPipe? && Slots(s.line, s.pending, pairs, numbered)
    ensures Wrap(Wrap(s.line) + c.pipeNumber) == Wrap(Target(s, c))
    ensures Wrap(Target(s, c)) in numbered <==> Target(s, c) in s.pending
    ensures Target(s, c) in s.pending ==> numbered[Wrap(Target(s, c))] == pairs[s.pending[Target(s, c)]]
  {
    WrapAdds(s.line, c.pipeNumber);
    SlotLookup(s.line, s.pending, pairs, numbered, Target(s, c));
  }

  lemma SlotsMore<T>(line: nat, pending: map<nat, nat>, pairs: map<nat, T>, numbered: map<nat, T>, p: nat, pair: T)
    requires Slots(line, pending, pairs, numbered) && p !in pairs
    ensures Slots(line, pending, pairs[p := pair], numbered)
  {
  }

  // Moving the counter alone keeps the books straight only if no pipe was due.
  lemma SkipLine(s: Session, pairs: map<nat, FdPair>, numbered: map<nat, FdPair>)
    requires Separate(s) && Slots(s.line, s.pending, pairs, numbered)
    ensures var t := s.(line := s.line + 1);
      && Separate(t) && OpenPipes(t) == OpenPipes(s)
      && (Slots(t.line, t.pending, pairs, numbered) <==> s.line !in s.pending)
    ensures Wrap(Wrap(s.line) + 1) == Wrap(s.line + 1)
  {
    WrapAdds(s.line, 1);
    var t := s.(line := s.line + 1);
    assert OpenPipes(t) == OpenPipes(s);
    assert Separate(t);
    hide Separate, OpenPipes, Wrap;
    SlotsNext(s.line, s.pending, pairs, numbered);
  }

  lemma SlotsNext(line: nat, pending: map<nat, nat>, pairs: map<nat, FdPair>, numbered: map<nat, FdPair>)
    requires Slots(line, pending, pairs, numbered)
    ensures Slots(line + 1, pending, pairs, numbered) <==> line !in pending
  {
    hide Wrap, Occupied;
    if line !in pending {
      assert forall L :: L in pending ==> line + 1 <= L;
    }
  }

  // The two ways to serve `|n`: join the pipe that is already there, or enter a new one.
  lemma TargetSlots<T>(s: Session, c: Command, pairs: map<nat, T>, numbered: map<nat, T>, pair: T)
    requires Separate(s) && Coherent(c) && c.kind.NumberedPipe? && OpenPipes(s) <= pairs.Keys && s.pipes !in pairs
    requires Slots(s.line, s.pending, pairs, numbered)
    ensures var key := Wrap(Wrap(s.line) + c.pipeNumber);
      && (key !in numbered ==>
            && OutPipe(s, c) == Some(s.pipes)
            && Slots(s.line, PendingAtFork(s, c), pairs[s.pipes := pair], numbered[key := pair]))
      && (key in numbered ==>
            && OutPipe(s, c) != Some(s.pipes)
            && Names(pairs, OutPipe(s, c), numbered[key])
            && PendingAtFork(s, c) == s.pending)
  {
    AtForkIs(s, c);
    TargetSlot(s, c, pairs, numbered);
    if Target(s, c) !in s.pending {
      SlotInsert(s.line, s.pending, pairs, numbered, Target(s, c), s.pipes, pair);
    }
  }

  class Shell {
    const process: Process
    const init: Table
    const writable: set<string>
    var numberedPipes: map<nat, FdPair>
    var lineCount: nat
    var pipesMade: nat
    var launched: seq<Table>
    ghost var session: Session
    ghost var pairs: map<nat, FdPair>

    ghost function TheHost(): Host
      requires Standard(init)
    {
      Host(init[0], init[1], init[2], Rest(init), writable)
    }

    // The shell's own table: its initial descriptors plus both ends of the pipes in `pairs`.
    ghost predicate Plumbed()
      reads this, process
    {
      && Standard(init) && NoPipes(TheHost())
      && Standard(process.fds)
      && process.fds[0] == init[0] && process.fds[1] == init[1] && process.fds[2] == init[2]
      && Accounts(process.fds, init, pairs, {})
    }

    // The concrete state is the abstract session, up to the position of the line counter.
    ghost predicate Live()
      reads this, process
    {
      && Plumbed()
      && pairs.Keys == OpenPipes(session)
      && Slots(session.line, session.pending, pairs, numberedPipes)
      && Separate(session)
      && pipesMade == session.pipes
      && AllMatch(launched, session.procs)
    }

    // Between lines.
    ghost predicate Valid()
      reads this, process
      ensures Valid() ==> Standard(init)
    {
      Live() && lineCount == Wrap(session.line) && session.left == None
    }

    constructor (process: Process, writable: set<string>)
      requires Standard(process.fds)
      requires forall f :: f in process.fds ==> process.fds[f].Inherited?
      ensures Valid()
      ensures this.process == process && init == process.fds && this.writable == writable
      ensures session == START
    {
      this.process := process;
      this.init := process.fds;
      this.writable := writable;
      numberedPipes, lineCount, pipesMade, launched := map[], 0, 0, [];
      session, pairs := START, map[];
    }

    // One process has been launched, and it is p.
    ghost predicate LaunchedOne(before: seq<Table>, p: Proc)
      reads this
    {
      exists t :: launched == before + [t] && Matches(t, p)
    }

    method MakePipe() returns (pair: FdPair)
      requires Plumbed() && pipesMade !in pairs
      modifies this`pairs, this`pipesMade, process
      ensures Plumbed() && pairs == old(pairs)[old(pipesMade) := pair] && pipesMade == old(pipesMade) + 1
    {
      ghost var t := process.fds;
      pair := process.Pipe(pipesMade);
      PipeAccounts(t, init, pairs, {}, pipesMade, pair);
      pairs := pairs[pipesMade := pair];
      pipesMade := pipesMade + 1;
    }

    method PipeParent(c: Command, pipeInFd: FdPair, ghost left: Option<nat>)
      requires Plumbed() && c.pipeBefore == left.Some? && Names(pairs, left, pipeInFd)
      modifies this`pairs, process
      ensures Plumbed() && pairs == old(pairs) - ToSet(left)
    {
      if c.pipeBefore {
        assert Opened(process.fds, init, left.value, pipeInFd);
        CloseAccounts(process.fds, init, pairs, {}, left.value);
        ghost var t := process.fds;
        process.Close(pipeInFd.read);
        process.Close(pipeInFd.write);
        assert process.fds == t - {pipeInFd.read, pipeInFd.write};
        pairs := pairs - {left.value};
      }
    }

    method NumberedPipeParent(ghost due: Option<nat>)
      requires Plumbed() && (lineCount in numberedPipes) == due.Some?
      requires due.Some? ==> Names(pairs, due, numberedPipes[lineCount])
      modifies this`pairs, this`numberedPipes, process
      ensures Plumbed() && pairs == old(pairs) - ToSet(due)
      ensures numberedPipes == old(numberedPipes) - {lineCount}
    {
      if lineCount in numberedPipes {
        var pipeFd := numberedPipes[lineCount];
        assert Opened(process.fds, init, due.value, pipeFd);
        CloseAccounts(process.fds, init, pairs, {}, due.value);
        ghost var t := process.fds;
        process.Close(pipeFd.write);
        process.Close(pipeFd.read);
        assert process.fds == t - {pipeFd.read, pipeFd.write};
        numberedPipes := numberedPipes - {lineCount};
        pairs := pairs - {due.value};
      }
    }

    // The pipes that the caller has prepared for command c: the neighbour's, the one due at this
    // line and the one to write, all different.
    ghost predicate Prepared(c: Command, pipeFd: FdPair, pipeInFd: FdPair, left: Option<nat>, due: Option<nat>,
            output: Option<nat>)
      reads this
    {
      && c.pipeBefore == left.Some? && Names(pairs, left, pipeInFd)
      && (lineCount in numberedPipes) == due.Some? && (due.Some? ==> Names(pairs, due, numberedPipes[lineCount]))
      && Writes(c) == output.Some? && Names(pairs, output, pipeFd)
      && (left.Some? ==> left != due && left != output)
      && (due.Some? ==> due != output)
      && !(c.pipeBefore && c.numberedBefore)
    }

    // The child's reading side, common to both kinds of command.
    method ChildIn(child: Process, c: Command, pipeInFd: FdPair, ghost pipeFd: FdPair,
                   ghost left: Option<nat>, ghost due: Option<nat>, ghost output: Option<nat>)
      requires Plumbed() && Prepared(c, pipeFd, pipeInFd, left, due, output)
      requires child != process && child.fds == process.fds
      modifies child
      ensures var input := if c.pipeBefore then left else due;
        && Standard(child.fds) && Accounts(child.fds, init, pairs - ToSet(input), {})
        && child.fds[0] == (if input.Some? then ReadEnd(input.value) else init[0])
        && child.fds[1] == init[1] && child.fds[2] == init[2]
    {
      ghost var input := if c.pipeBefore then left else due;
      if input.Some? {
        assert Opened(child.fds, init, input.value, pairs[input.value]);
        InputAccounts(child.fds, init, pairs, {}, input.value);
      }
      NumberedPipeChildIn(child, c, numberedPipes, lineCount);
      PipeChildIn(child, c, pipeInFd);
      assert pairs - ToSet(None) == pairs;
    }

    // The parent's side after fork, common to both kinds of command.
    method Parent(c: Command, pipeInFd: FdPair, ghost pipeFd: FdPair,
                  ghost left: Option<nat>, ghost due: Option<nat>, ghost output: Option<nat>)
      requires Plumbed() && Prepared(c, pipeFd, pipeInFd, left, due, output)
      modifies this`numberedPipes, this`pairs, process
      ensures Plumbed()
      ensures pairs == old(pairs) - (ToSet(left) + ToSet(due))
      ensures numberedPipes == old(numberedPipes) - {lineCount}
    {
      NumberedPipeParent(due);
      PipeParent(c, pipeInFd, left);
    }

    // The child's writing side: what is left above its standard descriptors is what it does not use.
    method ChildOut(child: Process, c: Command, pipeFd: FdPair, ghost held: map<nat, FdPair>, ghost output: Option<nat>)
      requires Standard(child.fds) && Accounts(child.fds, init, held, {})
      requires Writes(c) == output.Some? && Names(held, output, pipeFd)
      modifies child
      ensures Standard(child.fds) && Rest(child.fds) == Rest(init) + BothEnds(held.Keys - ToSet(output))
      ensures child.fds[0] == old(child.fds)[0]
      ensures child.fds[1] == if output.Some? then WriteEnd(output.value) else old(child.fds)[1]
      ensures child.fds[2] == if output.Some? && c.pipeStderr then WriteEnd(output.value) else old(child.fds)[2]
    {
      if output.Some? {
        assert Opened(child.fds, init, output.value, pipeFd);
        OutputAccounts(child.fds, init, held, {}, output.value, c.pipeStderr);
      }
      PipeChildOut(child, c, pipeFd);
      assert held - ToSet(None) == held;
      AccountsRest(child.fds, init, held - ToSet(output));
      assert (held - ToSet(output)).Keys == held.Keys - ToSet(output);
    }

    method ExecutePipe(c: Command, pipeFd: FdPair, pipeInFd: FdPair, ghost left: Option<nat>,
            ghost due: Option<nat>, ghost output: Option<nat>)
      requires Plumbed() && Prepared(c, pipeFd, pipeInFd, left, due, output)
      modifies this`launched, this`numberedPipes, this`pairs, process
      ensures Plumbed()
      ensures pairs == old(pairs) - (ToSet(left) + ToSet(due))
      ensures numberedPipes == old(numberedPipes) - {lineCount}
      ensures var input := if c.pipeBefore then left else due;
        LaunchedOne(old(launched), Spawn(TheHost(), input, output, c.pipeStderr, None, old(pairs).Keys - ToSet(input) - ToSet(output)))
    {
      hide Accounts, Opened;
      ghost var input := if c.pipeBefore then left else due;
      var child := new Process.Fork(process.fds);
      ChildIn(child, c, pipeInFd, pipeFd, left, due, output);
      ghost var held := pairs - ToSet(input);
      assert held.Keys == pairs.Keys - ToSet(input);
      ChildOut(child, c, pipeFd, held, output);
      launched := launched + [child.fds];
      Parent(c, pipeInFd, pipeFd, left, due, output);
    }

    method ExecuteRedirect(c: Command, pipeInFd: FdPair, ghost left: Option<nat>, ghost due: Option<nat>)
      requires Plumbed() && !Writes(c) && Prepared(c, pipeInFd, pipeInFd, left, due, None)
      modifies this`launched, this`numberedPipes, this`pairs, process
      ensures Plumbed()
      ensures pairs == old(pairs) - (ToSet(left) + ToSet(due))
      ensures numberedPipes == old(numberedPipes) - {lineCount}
      ensures var input := if c.pipeBefore then left else due;
        LaunchedOne(old(launched),
                Spawn(TheHost(), input, None, false, if c.fileName in writable then Some(c.fileName) else None, old(pairs).Keys - ToSet(input) - ToSet(None)))
    {
      hide Accounts, Opened;
      ghost var input := if c.pipeBefore then left else due;
      var child := new Process.Fork(process.fds);
      ChildIn(child, c, pipeInFd, pipeInFd, left, due, None);
      AccountsRest(child.fds, init, pairs - ToSet(input));
      assert (pairs - ToSet(input)).Keys == pairs.Keys - ToSet(input) - ToSet(None);
      FileChildOut(child, c, writable);
      launched := launched + [child.fds];
      Parent(c, pipeInFd, pipeInFd, left, due, None);
    }

    // Everything is ready to fork for command c.
    ghost predicate Ready(c: Command, pipeFd: FdPair, pipeInFd: FdPair)
      reads this, process
    {
      && Plumbed() && Separate(session)
      && Coherent(c) && c.pipeBefore == session.left.Some? && !(c.pipeBefore && c.numberedBefore)
      && lineCount == Wrap(session.line)
      && pairs.Keys == AtFork(session, c)
      && Slots(session.line, PendingAtFork(session, c), pairs, numberedPipes)
      && Names(pairs, session.left, pipeInFd) && Names(pairs, OutPipe(session, c), pipeFd)
      && pipesMade == Step(TheHost(), session, c).pipes
      && AllMatch(launched, session.procs)
    }

    lemma ReadyIsPrepared(c: Command, pipeFd: FdPair, pipeInFd: FdPair)
      requires Ready(c, pipeFd, pipeInFd)
      ensures Prepared(c, pipeFd, pipeInFd, session.left, DuePipe(session), OutPipe(session, c))
    {
      PipesDiffer(session, c);
      SlotLookup(session.line, PendingAtFork(session, c), pairs, numberedPipes, session.line);
      if c.numberedAfter { assert Target(session, c) != session.line; }
    }

    // execute_pipe or execute_redirect, by the command's type.
    method ForkAndClose(c: Command, pipeFd: FdPair, pipeInFd: FdPair)
      requires Ready(c, pipeFd, pipeInFd)
      modifies this`launched, this`numberedPipes, this`pairs, process
      ensures Plumbed()
      ensures pairs == old(pairs) - (ToSet(session.left) + ToSet(DuePipe(session)))
      ensures numberedPipes == old(numberedPipes) - {lineCount}
      ensures LaunchedOne(old(launched), Launch(TheHost(), session, c))
    {
      hide Accounts, Slots, Separate;
      ReadyIsPrepared(c, pipeFd, pipeInFd);
      LaunchShape(TheHost(), session, c);
      if c.kind.Redirect? {
        ExecuteRedirect(c, pipeInFd, session.left, DuePipe(session));
      } else {
        ExecutePipe(c, pipeFd, pipeInFd, session.left, DuePipe(session), OutPipe(session, c));
      }
    }

    lemma StepLaunches(h: Host, s: Session, c: Command)
      requires Coherent(c)
      ensures Step(h, s, c).procs == s.procs + [Engine.Launch(h, s, c)]
      ensures Step(h, s, c).left == if c.pipeAfter then OutPipe(s, c) else None
      ensures Step(h, s, c).line == s.line || Step(h, s, c).line == s.line + 1
    {
    }

    method RunReady(c: Command, pipeFd: FdPair, pipeInFd: FdPair)
      requires Ready(c, pipeFd, pipeInFd)
      modifies this`launched, this`numberedPipes, this`pairs, this`session, process
      ensures Live()
      ensures session == Step(TheHost(), old(session), c)
      ensures c.pipeAfter ==> Names(pairs, session.left, pipeFd)
    {
      hide Accounts, Slots, Separate, Step, AllMatch, Standard, NoPipes;
      ghost var s, tables := session, launched;
      StepLaunches(TheHost(), s, c);
      StepState(TheHost(), s, c, pairs, numberedPipes);
      ForkAndClose(c, pipeFd, pipeInFd);
      session := Step(TheHost(), s, c);
      ghost var t :| launched == tables + [t] && Matches(t, Engine.Launch(TheHost(), s, c));
      OneMoreMatches(tables, s.procs, t, Engine.Launch(TheHost(), s, c));
    }

    // The shell's tables before a command's pipe is prepared, and after.
    ghost predicate Tables()
      reads this, process
    {
      && Plumbed() && Separate(session) && pairs.Keys == OpenPipes(session) && pipesMade == session.pipes
      && Slots(session.line, session.pending, pairs, numberedPipes)
      && lineCount == Wrap(session.line)
    }

    ghost predicate OutputMade(c: Command, pipeFd: FdPair, before: map<nat, FdPair>)
      reads this, process
    {
      && Plumbed()
      && pairs == (if OutPipe(session, c) == Some(session.pipes) then before[session.pipes := pipeFd] else before)
      && Names(pairs, OutPipe(session, c), pipeFd)
      && Slots(session.line, PendingAtFork(session, c), pairs, numberedPipes)
      && pipesMade == if OutPipe(session, c) == Some(session.pipes) then session.pipes + 1 else session.pipes
    }

    method OrdinaryPipe(c: Command) returns (pipeFd: FdPair)
      requires Tables() && Coherent(c) && c.pipeAfter
      modifies this`pairs, this`pipesMade, process
      ensures OutputMade(c, pipeFd, old(pairs))
    {
      ghost var before := pairs;
      AtForkIs(session, c);
      pipeFd := MakePipe();
      SlotsMore(session.line, session.pending, before, numberedPipes, session.pipes, pipeFd);
    }

    method TargetPipe(c: Command) returns (pipeFd: FdPair)
      requires Tables() && Coherent(c) && c.kind.NumberedPipe?
      modifies this`numberedPipes, this`pairs, this`pipesMade, process
      ensures OutputMade(c, pipeFd, old(pairs))
    {
      hide Accounts, Slots, Separate, AllMatch, Step;
      ghost var before, slots := pairs, numberedPipes;
      AtForkIs(session, c);
      var target := Wrap(lineCount + c.pipeNumber);
      if target !in numberedPipes {
        pipeFd := MakePipe();
        numberedPipes := numberedPipes[target := pipeFd];
      } else {
        pipeFd := numberedPipes[target];
      }
      TargetSlots(session, c, before, slots, pipeFd);
    }

    // The pipe that command c writes: a new one for `|`, the target line's, new or not, for a number.
    method PrepareOutput(c: Command) returns (pipeFd: FdPair)
      requires Tables() && Coherent(c)
      modifies this`numberedPipes, this`pairs, this`pipesMade, process
      ensures OutputMade(c, pipeFd, old(pairs))
    {
      AtForkIs(session, c);
      pipeFd := FdPair(0, 0);
      if c.kind.Pipe? {
        if c.pipeAfter {
          pipeFd := OrdinaryPipe(c);
        }
      } else if c.kind.NumberedPipe? {
        pipeFd := TargetPipe(c);
      }
    }

    lemma MadeIsReady(c: Command, pipeFd: FdPair, pipeInFd: FdPair, before: map<nat, FdPair>)
      requires OutputMade(c, pipeFd, before) && before.Keys == OpenPipes(session)
      requires Separate(session) && AllMatch(launched, session.procs) && lineCount == Wrap(session.line)
      requires Coherent(c) && c.pipeBefore == session.left.Some? && !(c.pipeBefore && c.numberedBefore)
      requires Names(before, session.left, pipeInFd)
      ensures Ready(c, pipeFd, pipeInFd)
    {
      hide Accounts, Slots, Separate, AllMatch;
      AtForkIs(session, c);
    }

    lemma StepCounts(h: Host, s: Session, c: Command)
      requires Coherent(c)
      ensures Step(h, s, c).line == if c.pipeAfter then s.line else s.line + 1
      ensures Step(h, s, c).left == if c.pipeAfter then OutPipe(s, c) else None
      ensures c.pipeAfter ==> OutPipe(s, c).Some?
    {
    }

    // One command, from making its pipe to the parent's closing; `last` is the end of the line.
    method Execute(c: Command, last: bool, pipeInFd: FdPair) returns (pipeFd: FdPair)
      requires Live() && lineCount == Wrap(session.line)
      requires Coherent(c) && c.pipeBefore == session.left.Some? && !(c.pipeBefore && c.numberedBefore)
      requires Names(pairs, session.left, pipeInFd)
      requires if last then !c.pipeAfter else Writes(c)
      modifies this, process
      ensures Live()
      ensures session == Step(TheHost(), old(session), c)
      ensures c.pipeAfter == session.left.Some? && Names(pairs, session.left, pipeFd)
      ensures Wrap(session.line) == if last then Wrap(lineCount + 1) else lineCount
    {
      hide Accounts, Slots, Separate, AllMatch, Wrap, Step, OpenPipes, Standard, NoPipes;
      ghost var before, s := pairs, session;
      WrapAdds(session.line, 1);
      StepCounts(TheHost(), s, c);
      pipeFd := PrepareOutput(c);
      MadeIsReady(c, pipeFd, pipeInFd, before);
      RunReady(c, pipeFd, pipeInFd);
      if c.kind.NumberedPipe? && !last {
        lineCount := Wrap(lineCount + 1);
      }
    }

    // One input line. An empty command list only moves the counter on, past a pipe that may be due.
    method ExecuteCommands(commands: seq<Command>)
      requires Valid() && Chain(commands)
      modifies this, process
      ensures Valid() <==> commands != [] || old(session).line !in old(session).pending
      ensures session == if commands == [] then old(session).(line := old(session).line + 1) else Run(TheHost(), old(session), commands)
    {
      hide Accounts, Slots, Separate, AllMatch, Step, OpenPipes;
      var n := |commands|;
      ghost var s0 := session;
      var pipeInFd: map<nat, FdPair> := map[];
      for i := 0 to n
        invariant Live() && session == Run(TheHost(), s0, commands[..i])
        invariant session.left.Some? == (i < n && commands[i].pipeBefore)
        invariant session.left.Some? ==> i in pipeInFd && Names(pairs, session.left, pipeInFd[i])
        invariant Wrap(session.line) == if i == n && n > 0 then Wrap(lineCount + 1) else lineCount
      {
        var c := commands[i];
        RunSnoc(TheHost(), s0, commands, i);
        assert i + 1 < n ==> commands[i+1].pipeBefore == FollowsPipe(commands, i + 1);
        var pipeFd := Execute(c, i == n - 1, if c.pipeBefore then pipeInFd[i] else FdPair(0, 0));
        pipeInFd := pipeInFd[i + 1 := pipeFd];
      }
      assert commands[..n] == commands;
      if n == 0 {
        SkipLine(session, pairs, numberedPipes);
        session := session.(line := session.line + 1);
      }
      lineCount := Wrap(lineCount + 1);
    }
  }
}
