/** The abstract machine computes the declarative wiring, for every sequence of commands. */
module Wiring {
  import opened Commands
  import opened Engine

  // The last command ended in `|`, so its logical line is not over.
  predicate MidLine(cs: seq<Command>) {
    cs != [] && cs[|cs|-1].pipeAfter
  }

  // A pipe for line L is still to be delivered.
  predicate Ahead(at: seq<nat>, L: nat) {
    at != [] ==> at[|at|-1] < L
  }

  // Some command was asked to feed line L.
  ghost predicate Fed(cs: seq<Command>, at: seq<nat>, L: nat)
    requires |at| == |cs|
  {
    exists j :: 0 <= j < |cs| && Sends(cs, at, j, L)
  }

  // ----- What every run keeps ------------------------------------------------------------------

  // The next command runs at the session's line: not before the last one's, and on the same after `|`.
  ghost predicate Counted(cs: seq<Command>, at: seq<nat>, s: Session) {
    && |s.procs| == |cs| == |at|
    && (at != [] ==> at[|at|-1] <= s.line)
    && (s.left.Some? <==> MidLine(cs))
    && (s.left.Some? ==> s.procs[|cs|-1].stdout == WriteEnd(s.left.value))
  }

  // The pending lines are exactly the lines ahead that some command was asked to feed, and none has
  // been passed.
  ghost predicate PendingExact(cs: seq<Command>, at: seq<nat>, s: Session)
    requires |at| == |cs|
  {
    && (forall L: nat :: L in s.pending <==> Ahead(at, L) && Fed(cs, at, L))
    && (forall L: nat :: L in s.pending ==> s.line <= L)
  }

  // No pipe plays two roles, and `pipes` is above every pipe in use.
  ghost predicate Separate(s: Session) {
    && (forall L, M :: L in s.pending && M in s.pending && s.pending[L] == s.pending[M] ==> L == M)
    && (forall p :: p in OpenPipes(s) ==> p < s.pipes)
    && (s.left.Some? ==> s.left.value !in s.pending.Values)
    && (forall j :: 0 <= j < |s.procs| ==> Below(s.procs[j].stdin, s.pipes) && Below(s.procs[j].stdout, s.pipes))
  }

  predicate Below(e: End, n: nat) {
    match e case ReadEnd(p) => p < n case WriteEnd(p) => p < n case _ => true
  }

  ghost predicate WritersExact(cs: seq<Command>, at: seq<nat>, s: Session)
    requires |s.procs| == |cs| == |at|
  {
    && (forall L, j :: L in s.pending && 0 <= j < |cs| ==> (s.procs[j].stdout == WriteEnd(s.pending[L]) <==> Sends(cs, at, j, L)))
    && (s.left.Some? ==> forall j :: 0 <= j < |cs| - 1 ==> s.procs[j].stdout != WriteEnd(s.left.value))
  }

  // A pipe that has its reader is closed in the shell.
  ghost predicate ReadersGone(s: Session) {
    forall j :: 0 <= j < |s.procs| && s.procs[j].stdin.ReadEnd? ==> s.procs[j].stdin.pipe !in OpenPipes(s)
  }

  ghost predicate Tracks(h: Host, cs: seq<Command>, at: seq<nat>, s: Session) {
    && Counted(cs, at, s)
    && PendingExact(cs, at, s)
    && Separate(s)
    && WritersExact(cs, at, s)
    && ReadersGone(s)
    && Wired(h, cs, at, s.procs)
  }

  lemma NothingPassed(h: Host, cs: seq<Command>, at: seq<nat>, s: Session)
    requires Tracks(h, cs, at, s)
    ensures s.left.Some? <==> MidLine(cs)
    ensures at != [] ==> at[|at|-1] <= s.line
    ensures forall L :: L in s.pending ==> s.line <= L
  {
  }

  // The session goes on to a line that no command feeds before it, or stays at the last command's.
  lemma MoveTracks(h: Host, cs: seq<Command>, at: seq<nat>, s: Session, line: nat)
    requires Tracks(h, cs, at, s) && s.left.None?
    requires at != [] ==> at[|at|-1] <= line
    requires forall L :: L in s.pending ==> line <= L
    ensures Tracks(h, cs, at, s.(line := line))
  {
    assert OpenPipes(s.(line := line)) == OpenPipes(s);
  }

  // ----- One more command ------------------------------------------------------------------------

  lemma SendsExtend(cs: seq<Command>, at: seq<nat>, c: Command, line: nat)
    requires |at| == |cs|
    ensures forall j: nat, L: nat :: j < |cs| ==> (Sends(cs + [c], at + [line], j, L) <==> Sends(cs, at, j, L))
    ensures forall j: nat, k: nat :: j < |cs| && k < |cs| ==> (Feeds(cs + [c], at + [line], j, k) <==> Feeds(cs, at, j, k))
  {
  }

  lemma LastLink(cs: seq<Command>, c: Command)
    requires Linked(cs + [c])
    ensures Coherent(c) && c.pipeBefore == MidLine(cs)
  {
    var ds := cs + [c];
    assert ds[|cs|] == c;
    if cs != [] { assert ds[|cs|-1] == cs[|cs|-1]; }
  }

  lemma FedExtend(cs: seq<Command>, at: seq<nat>, c: Command, line: nat, L: nat)
    requires |at| == |cs|
    ensures Fed(cs + [c], at + [line], L) <==> Fed(cs, at, L) || (c.kind.NumberedPipe? && line + c.pipeNumber == L)
  {
    var ds, bt := cs + [c], at + [line];
    SendsExtend(cs, at, c, line);
    if j :| 0 <= j < |cs| && Sends(cs, at, j, L) { assert Sends(ds, bt, j, L); }
    assert Sends(ds, bt, |cs|, L) <==> c.kind.NumberedPipe? && line + c.pipeNumber == L;
    if j :| 0 <= j < |ds| && Sends(ds, bt, j, L) {
      if j < |cs| { assert Sends(cs, at, j, L); }
    }
  }

  lemma StepCounted(h: Host, cs: seq<Command>, at: seq<nat>, s: Session, c: Command)
    requires Counted(cs, at, s) && Linked(cs + [c])
    ensures Counted(cs + [c], at + [s.line], Step(h, s, c))
  {
    LastLink(cs, c);
  }

  lemma StepPending(h: Host, cs: seq<Command>, at: seq<nat>, s: Session, c: Command)
    requires Counted(cs, at, s) && PendingExact(cs, at, s) && Linked(cs + [c])
    ensures Counted(cs + [c], at + [s.line], Step(h, s, c))
    ensures PendingExact(cs + [c], at + [s.line], Step(h, s, c))
  {
    StepCounted(h, cs, at, s, c);
    forall L: nat ensures L in Step(h, s, c).pending <==> Ahead(at + [s.line], L) && Fed(cs + [c], at + [s.line], L) {
      StepPendingAt(h, cs, at, s, c, L);
    }
  }

  lemma StepPendingAt(h: Host, cs: seq<Command>, at: seq<nat>, s: Session, c: Command, L: nat)
    requires Counted(cs, at, s) && PendingExact(cs, at, s) && Linked(cs + [c])
    ensures L in Step(h, s, c).pending <==> Ahead(at + [s.line], L) && Fed(cs + [c], at + [s.line], L)
  {
    LastLink(cs, c);
    FedExtend(cs, at, c, s.line, L);
    PendingKeys(h, s, c, L);
    assert Ahead(at + [s.line], L) <==> s.line < L;
    hide Fed, Linked, Step, MidLine;
    assert L in s.pending <==> Ahead(at, L) && Fed(cs, at, L);
  }

  lemma PendingKeys(h: Host, s: Session, c: Command, L: nat)
    requires Coherent(c)
    ensures L in Step(h, s, c).pending <==> L != s.line && (L in s.pending || (c.numberedAfter && L == Target(s, c)))
  {
  }

  // A step opens at most the one new pipe.
  lemma StepOpens(h: Host, s: Session, c: Command)
    ensures OpenPipes(Step(h, s, c)) <= OpenPipes(s) + {s.pipes}
  {
    var t := Step(h, s, c);
    forall p | p in OpenPipes(t) ensures p in OpenPipes(s) + {s.pipes} {
      if p in t.pending.Values {
        var L :| L in t.pending && t.pending[L] == p;
        assert L in s.pending ==> s.pending[L] in OpenPipes(s);
        assert OutPipe(s, c).Some? ==> OutPipe(s, c).value == s.pipes || OutPipe(s, c).value in OpenPipes(s) by {
          if Target(s, c) in s.pending { assert s.pending[Target(s, c)] in OpenPipes(s); }
        }
      }
    }
  }

  // A pending line keeps its pipe; a new one is for the target line.
  lemma PendingAfter(h: Host, s: Session, c: Command, L: nat)
    requires Coherent(c) && L in Step(h, s, c).pending
    ensures var p := Step(h, s, c).pending[L];
      if L in s.pending then p == s.pending[L] && p in OpenPipes(s)
      else c.numberedAfter && OutPipe(s, c).Some? && OutPipe(s, c).value == p && L == Target(s, c) && (!c.pipeAfter ==> p == s.pipes)
  {
    if L in s.pending { assert s.pending[L] in OpenPipes(s); }
  }

  lemma StepSeparate(h: Host, s: Session, c: Command)
    requires NoPipes(h) && Separate(s) && Coherent(c) && c.pipeBefore == s.left.Some?
    ensures Separate(Step(h, s, c))
  {
    var t := Step(h, s, c);
    StepOpens(h, s, c);
    forall L, M | L in t.pending && M in t.pending && t.pending[L] == t.pending[M] ensures L == M {
      PendingAfter(h, s, c, L);
      PendingAfter(h, s, c, M);
    }
    if c.pipeAfter {
      forall L | L in t.pending ensures t.pending[L] != s.pipes {
        PendingAfter(h, s, c, L);
      }
    }
    PipesGrow(h, s, c);
    LaunchBelow(h, s, c);
    hide Launch;
  }

  lemma PipesGrow(h: Host, s: Session, c: Command)
    requires Coherent(c)
    ensures s.pipes <= Step(h, s, c).pipes
    ensures s.pipes in OpenPipes(Step(h, s, c)) && s.pipes !in OpenPipes(s) ==> s.pipes < Step(h, s, c).pipes
  {
    var t := Step(h, s, c);
    if s.pipes in t.pending.Values {
      var L :| L in t.pending && t.pending[L] == s.pipes;
      PendingAfter(h, s, c, L);
    }
  }

  lemma LaunchBelow(h: Host, s: Session, c: Command)
    requires NoPipes(h) && Separate(s) && Coherent(c) && c.pipeBefore == s.left.Some?
    ensures var t := Step(h, s, c); Below(Launch(h, s, c).stdin, t.pipes) && Below(Launch(h, s, c).stdout, t.pipes)
  {
    assert forall L :: L in s.pending ==> s.pending[L] in OpenPipes(s);
  }

  lemma StepWriters(h: Host, cs: seq<Command>, at: seq<nat>, s: Session, c: Command)
    requires NoPipes(h) && Counted(cs, at, s) && PendingExact(cs, at, s) && Separate(s) && Linked(cs + [c]) && WritersExact(cs, at, s)
    ensures |Step(h, s, c).procs| == |cs| + 1
    ensures WritersExact(cs + [c], at + [s.line], Step(h, s, c))
  {
    var ds, bt, t := cs + [c], at + [s.line], Step(h, s, c);
    LastLink(cs, c);
    forall L, j | L in t.pending && 0 <= j < |ds|
      ensures t.procs[j].stdout == WriteEnd(t.pending[L]) <==> Sends(ds, bt, j, L)
    {
      hide Linked, PendingExact, Sends, Launch;
      if j < |cs| { OldWriter(h, cs, at, s, c, L, j); } else { NewWriter(h, cs, at, s, c, L); }
    }
    assert forall j :: 0 <= j < |cs| ==> Below(s.procs[j].stdout, s.pipes) && t.procs[j] == s.procs[j];
  }

  lemma OldWriter(h: Host, cs: seq<Command>, at: seq<nat>, s: Session, c: Command, L: nat, j: nat)
    requires Counted(cs, at, s) && PendingExact(cs, at, s) && Separate(s) && Linked(cs + [c]) && WritersExact(cs, at, s)
    requires j < |cs| && L in Step(h, s, c).pending
    ensures s.procs[j].stdout == WriteEnd(Step(h, s, c).pending[L]) <==> Sends(cs + [c], at + [s.line], j, L)
  {
    LastLink(cs, c);
    SendsExtend(cs, at, c, s.line);
    if L !in s.pending {
      assert Step(h, s, c).pending[L] == s.pipes;
      assert Below(s.procs[j].stdout, s.pipes);
      assert Ahead(at, L);
    }
  }

  lemma NewWriter(h: Host, cs: seq<Command>, at: seq<nat>, s: Session, c: Command, L: nat)
    requires NoPipes(h) && Counted(cs, at, s) && Separate(s) && Linked(cs + [c])
    requires L in Step(h, s, c).pending
    ensures Step(h, s, c).procs[|cs|].stdout == WriteEnd(Step(h, s, c).pending[L]) <==> Sends(cs + [c], at + [s.line], |cs|, L)
  {
    LastLink(cs, c);
    var ds, bt := cs + [c], at + [s.line];
    assert ds[|cs|] == c && bt[|cs|] == s.line && Step(h, s, c).procs[|cs|] == Launch(h, s, c);
    hide Linked, Counted, Step;
    TargetWriter(h, s, c, L);
  }

  lemma TargetWriter(h: Host, s: Session, c: Command, L: nat)
    requires NoPipes(h) && Separate(s) && Coherent(c) && c.pipeBefore == s.left.Some?
    requires L in Step(h, s, c).pending
    ensures Launch(h, s, c).stdout == WriteEnd(Step(h, s, c).pending[L]) <==> c.kind.NumberedPipe? && s.line + c.pipeNumber == L
  {
    assert forall M :: M in s.pending ==> s.pending[M] in OpenPipes(s);
  }

  // The pipe that a command reads was open, and is not any more.
  lemma InputIsClosed(h: Host, s: Session, c: Command)
    requires Separate(s) && Coherent(c) && c.pipeBefore == s.left.Some? && InPipe(s, c).Some?
    ensures InPipe(s, c).value in OpenPipes(s) && InPipe(s, c).value !in OpenPipes(Step(h, s, c))
  {
    var p, t := InPipe(s, c).value, Step(h, s, c);
    assert forall L :: L in s.pending ==> s.pending[L] in OpenPipes(s);
    forall L | L in t.pending ensures t.pending[L] != p {
      assert t.pending[L] == s.pipes || (L in s.pending && t.pending[L] == s.pending[L]);
    }
  }

  lemma StepReaders(h: Host, cs: seq<Command>, at: seq<nat>, s: Session, c: Command)
    requires NoPipes(h) && Counted(cs, at, s) && Separate(s) && Linked(cs + [c]) && ReadersGone(s)
    ensures ReadersGone(Step(h, s, c))
    ensures OneReader(s.procs) ==> OneReader(Step(h, s, c).procs)
  {
    var t := Step(h, s, c);
    LastLink(cs, c);
    StepOpens(h, s, c);
    if InPipe(s, c).Some? { InputIsClosed(h, s, c); }
    assert forall j :: 0 <= j < |cs| ==> Below(s.procs[j].stdin, s.pipes);
    assert t.procs == s.procs + [Launch(h, s, c)];
    assert Launch(h, s, c).stdin == if InPipe(s, c).Some? then ReadEnd(InPipe(s, c).value) else h.stdin;
    hide OpenPipes, Step, Launch, InPipe, Linked;
  }

  lemma StepWired(h: Host, cs: seq<Command>, at: seq<nat>, s: Session, c: Command)
    requires NoPipes(h) && Tracks(h, cs, at, s) && Linked(cs + [c])
    ensures Wired(h, cs + [c], at + [s.line], Step(h, s, c).procs)
  {
    var ds, bt, ps := cs + [c], at + [s.line], Step(h, s, c).procs;
    StepReaders(h, cs, at, s, c);
    forall k: nat | k < |ds| ensures WiredIn(h, ds, bt, ps, k) && WiredOut(h, ds, ps, k) {
      if k < |cs| { OldStaysWired(h, cs, at, s, c, k); } else { NewIsWired(h, cs, at, s, c); }
    }
  }

  // A command writes an open pipe or a new one, and no other.
  lemma OutputIsOpen(h: Host, s: Session, c: Command)
    requires NoPipes(h)
    ensures var e := Launch(h, s, c).stdout;
      e.WriteEnd? ==> (e.pipe in OpenPipes(s) && !c.pipeAfter) || e.pipe == s.pipes
  {
    assert forall L :: L in s.pending ==> s.pending[L] in OpenPipes(s);
  }

  // The pipe an earlier command reads is never written by a later one.
  lemma OldStaysWired(h: Host, cs: seq<Command>, at: seq<nat>, s: Session, c: Command, k: nat)
    requires NoPipes(h) && Tracks(h, cs, at, s) && Linked(cs + [c]) && k < |cs|
    ensures WiredIn(h, cs + [c], at + [s.line], Step(h, s, c).procs, k)
    ensures WiredOut(h, cs + [c], Step(h, s, c).procs, k)
  {
    var ds, bt, ps := cs + [c], at + [s.line], s.procs + [Launch(h, s, c)];
    assert Step(h, s, c).procs == ps;
    SendsExtend(cs, at, c, s.line);
    LastLink(cs, c);
    assert WiredIn(h, cs, at, s.procs, k) && WiredOut(h, cs, s.procs, k);
    assert ds[k] == cs[k] && ps[k] == s.procs[k];
    assert forall j: nat :: j < |cs| ==> (Feeds(ds, bt, j, k) <==> Feeds(cs, at, j, k));
    NewOutputIsOther(h, cs, at, s, c, k);
    hide Tracks, Step, Launch, Linked, Feeds, Sends;
    StaysWiredIn(h, cs, at, s.procs, c, Launch(h, s, c), s.line, k);
  }

  // What command k reads, or, after a `|`, what its neighbour writes, is not the new command's output.
  lemma NewOutputIsOther(h: Host, cs: seq<Command>, at: seq<nat>, s: Session, c: Command, k: nat)
    requires NoPipes(h) && Tracks(h, cs, at, s) && Linked(cs + [c]) && k < |cs|
    ensures s.procs[k].stdin.ReadEnd? ==> Launch(h, s, c).stdout != WriteEnd(s.procs[k].stdin.pipe)
  {
    OutputIsOpen(h, s, c);
    assert Below(s.procs[k].stdin, s.pipes);
    assert s.procs[k].stdin.ReadEnd? ==> s.procs[k].stdin.pipe !in OpenPipes(s);
  }

  lemma StaysWiredIn(h: Host, cs: seq<Command>, at: seq<nat>, ps: seq<Proc>, c: Command, p: Proc, line: nat, k: nat)
    requires |ps| == |cs| == |at| && k < |cs| && WiredIn(h, cs, at, ps, k)
    requires ps[k].stdin.ReadEnd? ==> p.stdout != WriteEnd(ps[k].stdin.pipe)
    requires forall j: nat :: j < |cs| ==> (Feeds(cs + [c], at + [line], j, k) <==> Feeds(cs, at, j, k))
    ensures WiredIn(h, cs + [c], at + [line], ps + [p], k)
  {
    hide Feeds;
    var ds, bt, qs := cs + [c], at + [line], ps + [p];
    assert ds[k] == cs[k] && qs[k] == ps[k];
    assert forall j :: 0 <= j < |cs| ==> qs[j] == ps[j];
    if !cs[k].pipeBefore {
      assert (exists j :: 0 <= j < k && Feeds(ds, bt, j, k)) <==> (exists j :: 0 <= j < k && Feeds(cs, at, j, k)) by {
        assert forall j: nat :: j < k ==> (Feeds(ds, bt, j, k) <==> Feeds(cs, at, j, k));
      }
    }
  }

  lemma NewIsWired(h: Host, cs: seq<Command>, at: seq<nat>, s: Session, c: Command)
    requires NoPipes(h) && Tracks(h, cs, at, s) && Linked(cs + [c])
    ensures WiredIn(h, cs + [c], at + [s.line], Step(h, s, c).procs, |cs|)
    ensures WiredOut(h, cs + [c], Step(h, s, c).procs, |cs|)
  {
    LastLink(cs, c);
    assert (cs + [c])[|cs|] == c && Step(h, s, c).procs[|cs|] == Launch(h, s, c);
    if c.pipeBefore {
      ReadsNeighbour(h, cs, at, s, c);
    } else {
      ReadsDue(h, cs, at, s, c);
    }
  }

  // The last command before c is the only writer of the pipe that c reads.
  lemma ReadsNeighbour(h: Host, cs: seq<Command>, at: seq<nat>, s: Session, c: Command)
    requires NoPipes(h) && Tracks(h, cs, at, s) && Linked(cs + [c]) && c.pipeBefore && s.left.Some?
    ensures WiredIn(h, cs + [c], at + [s.line], Step(h, s, c).procs, |cs|)
  {
    LastLink(cs, c);
    OtherOutput(h, s, c);
    assert Step(h, s, c).procs == s.procs + [Launch(h, s, c)];
    hide Step, OutPipe, OpenPipes, Linked, Wired, PendingExact, Separate;
  }

  // The writers of the due pipe are the commands that named the line; without any, or after another
  // command of the same line, no pipe is due.
  lemma ReadsDue(h: Host, cs: seq<Command>, at: seq<nat>, s: Session, c: Command)
    requires NoPipes(h) && Tracks(h, cs, at, s) && Linked(cs + [c]) && !c.pipeBefore && s.left.None?
    ensures WiredIn(h, cs + [c], at + [s.line], Step(h, s, c).procs, |cs|)
  {
    var p := Launch(h, s, c);
    assert Step(h, s, c).procs == s.procs + [p];
    LastLink(cs, c);
    OtherOutput(h, s, c);
    NewFeeds(cs, at, c, s.line);
    DueWriters(h, cs, at, s);
    hide Tracks, Step, Launch, OutPipe, Linked, Sends, Feeds;
    if s.line in s.pending {
      ReadsFed(h, cs, at, s.procs, c, p, s.line, s.pending[s.line]);
    } else {
      ReadsInherited(h, cs, at, s.procs, c, p, s.line);
    }
  }

  lemma NewFeeds(cs: seq<Command>, at: seq<nat>, c: Command, line: nat)
    requires |at| == |cs|
    ensures forall j: nat :: j < |cs| ==>
      (Feeds(cs + [c], at + [line], j, |cs|) <==> !c.pipeBefore && Ahead(at, line) && Sends(cs, at, j, line))
  {
  }

  lemma DueWriters(h: Host, cs: seq<Command>, at: seq<nat>, s: Session)
    requires Tracks(h, cs, at, s)
    ensures |s.procs| == |cs| == |at|
    ensures s.line in s.pending <==> Ahead(at, s.line) && Fed(cs, at, s.line)
    ensures s.line in s.pending ==>
      forall j: nat :: j < |cs| ==> (s.procs[j].stdout == WriteEnd(s.pending[s.line]) <==> Sends(cs, at, j, s.line))
  {
    hide Wired, Separate, ReadersGone;
  }

  lemma ReadsFed(h: Host, cs: seq<Command>, at: seq<nat>, ps: seq<Proc>, c: Command, p: Proc, line: nat, pipe: nat)
    requires |ps| == |cs| == |at| && !c.pipeBefore && Fed(cs, at, line)
    requires forall j: nat :: j < |cs| ==> (Feeds(cs + [c], at + [line], j, |cs|) <==> Sends(cs, at, j, line))
    requires forall j: nat :: j < |cs| ==> (ps[j].stdout == WriteEnd(pipe) <==> Sends(cs, at, j, line))
    requires p.stdin == ReadEnd(pipe) && p.stdout != WriteEnd(pipe)
    ensures WiredIn(h, cs + [c], at + [line], ps + [p], |cs|)
  {
    hide Sends, Feeds;
    var ds, bt, qs, n := cs + [c], at + [line], ps + [p], |cs|;
    assert ds[n] == c && qs[n] == p && forall j :: 0 <= j < n ==> qs[j] == ps[j];
    var j :| 0 <= j < n && Sends(cs, at, j, line);
    assert Feeds(ds, bt, j, n);
  }

  lemma ReadsInherited(h: Host, cs: seq<Command>, at: seq<nat>, ps: seq<Proc>, c: Command, p: Proc, line: nat)
    requires |ps| == |cs| == |at| && !c.pipeBefore && p.stdin == h.stdin
    requires forall j: nat :: j < |cs| ==> !Feeds(cs + [c], at + [line], j, |cs|)
    ensures WiredIn(h, cs + [c], at + [line], ps + [p], |cs|)
  {
    hide Sends, Feeds;
    var n := |cs|;
    assert (cs + [c])[n] == c && (ps + [p])[n] == p;
  }

  // A command does not write the pipe that it reads.
  lemma OtherOutput(h: Host, s: Session, c: Command)
    requires NoPipes(h) && Separate(s) && Coherent(c) && c.pipeBefore == s.left.Some?
    ensures InPipe(s, c).Some? ==> Launch(h, s, c).stdin == ReadEnd(InPipe(s, c).value)
    ensures InPipe(s, c).None? ==> Launch(h, s, c).stdin == h.stdin
    ensures InPipe(s, c).Some? ==> Launch(h, s, c).stdout != WriteEnd(InPipe(s, c).value)
  {
    assert forall L :: L in s.pending ==> s.pending[L] in OpenPipes(s);
  }

  lemma StepTracks(h: Host, cs: seq<Command>, at: seq<nat>, s: Session, c: Command)
    requires NoPipes(h) && Tracks(h, cs, at, s) && Linked(cs + [c])
    ensures Tracks(h, cs + [c], at + [s.line], Step(h, s, c))
  {
    StepPending(h, cs, at, s, c);
    LastLink(cs, c);
    StepSeparate(h, s, c);
    StepWriters(h, cs, at, s, c);
    StepReaders(h, cs, at, s, c);
    StepWired(h, cs, at, s, c);
  }

  lemma LinkedConcat(a: seq<Command>, b: seq<Command>)
    requires Linked(a) && !MidLine(a) && Linked(b)
    ensures Linked(a + b)
  {
    var cs := a + b;
    forall k: nat | k < |cs| ensures cs[k].pipeBefore == FollowsPipe(cs, k) && Coherent(cs[k]) {
      if k < |a| {
        assert FollowsPipe(cs, k) == FollowsPipe(a, k);
      } else {
        assert b[k - |a|].pipeBefore == FollowsPipe(b, k - |a|);
      }
    }
  }

  lemma LinkedPrefix(cs: seq<Command>, k: nat)
    requires Linked(cs) && k <= |cs|
    ensures Linked(cs[..k])
  {
    assert forall i: nat :: i < k ==> FollowsPipe(cs[..k], i) == FollowsPipe(cs, i);
  }

  lemma StartTracks(h: Host)
    ensures Tracks(h, [], [], START)
  {
  }

  lemma LinesOfSnoc(cs: seq<Command>, c: Command, first: nat)
    ensures LinesOf(cs + [c], first) == LinesOf(cs, first) + [first + LineOf(cs, |cs|)]
    ensures LineOf(cs + [c], |cs| + 1) == LineOf(cs, |cs|) + if c.pipeAfter then 0 else 1
  {
    assert (cs + [c])[..|cs|] == cs;
    LineOfPrefix(cs, c, |cs|);
  }

  lemma {:induction false} LineOfPrefix(cs: seq<Command>, c: Command, k: nat)
    requires k <= |cs|
    ensures LineOf(cs + [c], k) == LineOf(cs, k)
  {
    if k > 0 { LineOfPrefix(cs, c, k - 1); }
  }

  // A run that goes on from any point keeps everything exact, each command at its own line.
  lemma {:induction false} RunOnTracks(h: Host, before: seq<Command>, at: seq<nat>, s: Session, cs: seq<Command>)
    requires NoPipes(h) && Tracks(h, before, at, s) && Linked(before + cs)
    ensures Tracks(h, before + cs, at + LinesOf(cs, s.line), Run(h, s, cs))
    ensures Run(h, s, cs).line == s.line + LineOf(cs, |cs|)
    decreases |cs|
  {
    hide Tracks, Linked, Step, Run, NoPipes, LineOf, LinesOf;
    if cs == [] {
      NoMoreTracks(h, before, at, s);
    } else {
      var n := |cs| - 1;
      var front, c := cs[..n], cs[n];
      assert cs == front + [c] && cs[..n + 1] == cs;
      LinkedPrefix(before + cs, |before| + n);
      assert (before + cs)[..|before| + n] == before + front;
      RunOnTracks(h, before, at, s, front);
      RunSnoc(h, s, cs, n);
      LinesOfSnoc(front, c, s.line);
      StepLine(h, Run(h, s, front), c);
      assert before + cs == before + front + [c];
      StepTracks(h, before + front, at + LinesOf(front, s.line), Run(h, s, front), c);
      assert at + LinesOf(cs, s.line) == at + LinesOf(front, s.line) + [Run(h, s, front).line];
    }
  }

  lemma NoMoreTracks(h: Host, before: seq<Command>, at: seq<nat>, s: Session)
    requires Tracks(h, before, at, s)
    ensures Tracks(h, before + [], at + LinesOf([], s.line), Run(h, s, []))
    ensures Run(h, s, []).line == s.line + LineOf([], 0)
  {
    assert before + [] == before && at + [] == at;
  }

  lemma StepLine(h: Host, s: Session, c: Command)
    ensures Step(h, s, c).line == s.line + if c.pipeAfter then 0 else 1
  {
  }

  lemma RunTracks(h: Host, cs: seq<Command>)
    requires NoPipes(h) && Linked(cs)
    ensures Tracks(h, cs, LinesOf(cs, 0), Run(h, START, cs))
    ensures Run(h, START, cs).line == LineOf(cs, |cs|)
  {
    StartTracks(h);
    assert [] + cs == cs && [] + LinesOf(cs, 0) == LinesOf(cs, 0);
    RunOnTracks(h, [], [], START, cs);
  }

  // Main result: over any sequence of lines, line L's first command reads the one pipe written by
  // exactly the earlier commands that named line L, and every other command reads its left neighbour.
  lemma RunIsWired(h: Host, cs: seq<Command>)
    requires NoPipes(h) && Linked(cs)
    ensures Wired(h, cs, LinesOf(cs, 0), Run(h, START, cs).procs)
  {
    RunTracks(h, cs);
  }
}
