/** Who holds the ends of a pipe, and how many pipes the shell keeps open. */
module Ownership {
  import opened Outcomes
  import opened Commands
  import opened Engine
  import opened Wiring

  predicate Holds(p: Proc, e: End) {
    e == p.stdin || e == p.stdout || e == p.stderr || e in p.others
  }

  // The ordinary pipe between commands k and k+1 is nobody else's: its write end is command k's
  // standard output and nothing more, its read end command k+1's standard input and nothing more.
  ghost predicate Private(ps: seq<Proc>, k: nat, p: nat)
    requires k < |ps|
  {
    && ps[k].stdout == WriteEnd(p)
    && ps[k].stderr != WriteEnd(p) && WriteEnd(p) !in ps[k].others
    && (forall j :: 0 <= j < |ps| && Holds(ps[j], WriteEnd(p)) ==> j == k)
    && (forall j :: 0 <= j < |ps| && Holds(ps[j], ReadEnd(p)) ==> j == k + 1)
    && (k + 1 < |ps| ==> ps[k+1].stdin == ReadEnd(p) && ReadEnd(p) !in ps[k+1].others)
  }

  ghost predicate AllPrivate(cs: seq<Command>, s: Session)
    requires |s.procs| == |cs|
  {
    forall k :: 0 <= k < |cs| && cs[k].pipeAfter ==>
      && s.procs[k].stdout.WriteEnd?
      && Private(s.procs, k, s.procs[k].stdout.pipe)
      && (k + 1 < |cs| ==> s.procs[k].stdout.pipe !in OpenPipes(s))
  }

  ghost predicate HeldBelow(s: Session) {
    forall j, e :: 0 <= j < |s.procs| && Holds(s.procs[j], e) ==> Below(e, s.pipes)
  }

  // A child holds ends of the pipes that were open, and of the one made for it.
  lemma LaunchHolds(h: Host, s: Session, c: Command, p: nat)
    requires NoPipes(h)
    requires Holds(Launch(h, s, c), WriteEnd(p)) || Holds(Launch(h, s, c), ReadEnd(p))
    ensures p in OpenPipes(s) || OutPipe(s, c) == Some(p)
    ensures p in OpenPipes(s) || p == s.pipes
  {
    assert forall L :: L in s.pending ==> s.pending[L] in OpenPipes(s);
    var pending := PendingAtFork(s, c);
    if p in pending.Values {
      var L :| L in pending && pending[L] == p;
    }
  }

  lemma StepHeldBelow(h: Host, s: Session, c: Command)
    requires NoPipes(h) && Separate(s) && HeldBelow(s)
    ensures HeldBelow(Step(h, s, c))
  {
    var t := Step(h, s, c);
    forall j, e | 0 <= j < |t.procs| && Holds(t.procs[j], e) ensures Below(e, t.pipes) {
      if j < |s.procs| {
        assert Below(e, s.pipes);
      } else if e.ReadEnd? || e.WriteEnd? {
        LaunchHolds(h, s, c, e.pipe);
      }
    }
  }

  lemma StepPrivate(h: Host, cs: seq<Command>, at: seq<nat>, s: Session, c: Command)
    requires NoPipes(h) && Tracks(h, cs, at, s) && Linked(cs + [c]) && HeldBelow(s) && AllPrivate(cs, s)
    ensures |Step(h, s, c).procs| == |cs| + 1 && AllPrivate(cs + [c], Step(h, s, c))
  {
    LastLink(cs, c);
    forall k: nat | k < |cs| && cs[k].pipeAfter
      ensures s.procs[k].stdout.WriteEnd?
      ensures Private(Step(h, s, c).procs, k, s.procs[k].stdout.pipe)
      ensures s.procs[k].stdout.pipe !in OpenPipes(Step(h, s, c))
    {
      PrivateStays(h, cs, at, s, c, k);
    }
    if c.pipeAfter { NewIsPrivate(h, cs, at, s, c); }
  }

  lemma NewIsPrivate(h: Host, cs: seq<Command>, at: seq<nat>, s: Session, c: Command)
    requires NoPipes(h) && Counted(cs, at, s) && Separate(s) && Linked(cs + [c]) && HeldBelow(s) && c.pipeAfter
    ensures Private(Step(h, s, c).procs, |cs|, s.pipes)
  {
    var ps := Step(h, s, c).procs;
    assert Coherent((cs + [c])[|cs|]);
    forall j | 0 <= j < |cs| ensures !Holds(ps[j], WriteEnd(s.pipes)) && !Holds(ps[j], ReadEnd(s.pipes)) {
      assert !Below(WriteEnd(s.pipes), s.pipes) && !Below(ReadEnd(s.pipes), s.pipes);
    }
    assert s.pipes !in OpenPipes(s);
  }

  lemma PrivateStays(h: Host, cs: seq<Command>, at: seq<nat>, s: Session, c: Command, k: nat)
    requires NoPipes(h) && Counted(cs, at, s) && Separate(s) && Linked(cs + [c]) && AllPrivate(cs, s)
    requires k < |cs| && cs[k].pipeAfter
    ensures s.procs[k].stdout.WriteEnd?
    ensures Private(Step(h, s, c).procs, k, s.procs[k].stdout.pipe)
    ensures s.procs[k].stdout.pipe !in OpenPipes(Step(h, s, c))
  {
    var p := s.procs[k].stdout.pipe;
    LastLink(cs, c);
    assert Private(s.procs, k, p);
    assert Below(s.procs[k].stdout, s.pipes);
    if k + 1 < |cs| {
      NotInherited(h, s, c, p);
    } else {
      NeighbourOnly(h, s, c, p);
    }
  }

  // A pipe that is no longer open is passed to no child and stays closed.
  lemma NotInherited(h: Host, s: Session, c: Command, p: nat)
    requires NoPipes(h) && p !in OpenPipes(s) && p < s.pipes
    ensures !Holds(Launch(h, s, c), WriteEnd(p)) && !Holds(Launch(h, s, c), ReadEnd(p))
    ensures p !in OpenPipes(Step(h, s, c))
  {
    if Holds(Launch(h, s, c), WriteEnd(p)) || Holds(Launch(h, s, c), ReadEnd(p)) { LaunchHolds(h, s, c, p); }
    assert forall L :: L in s.pending ==> s.pending[L] in OpenPipes(s);
  }

  // The pipe from the left neighbour becomes standard input and is closed everywhere else.
  lemma NeighbourOnly(h: Host, s: Session, c: Command, p: nat)
    requires NoPipes(h) && Separate(s) && c.pipeBefore && s.left == Some(p) && (c.numberedAfter ==> !c.pipeAfter)
    ensures Launch(h, s, c).stdin == ReadEnd(p) && ReadEnd(p) !in Launch(h, s, c).others
    ensures !Holds(Launch(h, s, c), WriteEnd(p))
    ensures p !in OpenPipes(Step(h, s, c))
  {
    assert p in OpenPipes(s);
    assert forall L :: L in s.pending ==> s.pending[L] in OpenPipes(s);
    assert forall L :: L in s.pending ==> s.pending[L] != p;
    assert OutPipe(s, c) != Some(p);
  }

  ghost predicate Kept(h: Host, cs: seq<Command>, at: seq<nat>, s: Session) {
    Tracks(h, cs, at, s) && HeldBelow(s) && AllPrivate(cs, s)
  }

  lemma StepKept(h: Host, cs: seq<Command>, at: seq<nat>, s: Session, c: Command)
    requires NoPipes(h) && Kept(h, cs, at, s) && Linked(cs + [c])
    ensures Kept(h, cs + [c], at + [s.line], Step(h, s, c))
  {
    StepTracks(h, cs, at, s, c);
    StepHeldBelow(h, s, c);
    StepPrivate(h, cs, at, s, c);
  }

  lemma {:induction false} RunOnKept(h: Host, before: seq<Command>, at: seq<nat>, s: Session, cs: seq<Command>)
    requires NoPipes(h) && Kept(h, before, at, s) && Linked(before + cs)
    ensures Kept(h, before + cs, at + LinesOf(cs, s.line), Run(h, s, cs))
    decreases |cs|
  {
    hide Kept, Linked, Step, Run, NoPipes, LineOf, LinesOf;
    KeptTracks(h, before, at, s);
    if cs == [] {
      NoMoreKept(h, before, at, s);
    } else {
      var n := |cs| - 1;
      var front, c := cs[..n], cs[n];
      assert cs == front + [c] && cs[..n + 1] == cs;
      LinkedPrefix(before + cs, |before| + n);
      assert (before + cs)[..|before| + n] == before + front;
      RunOnKept(h, before, at, s, front);
      RunSnoc(h, s, cs, n);
      assert before + cs == before + front + [c];
      LinesOfSnoc(front, c, s.line);
      RunOnTracks(h, before, at, s, front);
      StepKept(h, before + front, at + LinesOf(front, s.line), Run(h, s, front), c);
      assert at + LinesOf(cs, s.line) == at + LinesOf(front, s.line) + [Run(h, s, front).line];
    }
  }

  lemma KeptTracks(h: Host, cs: seq<Command>, at: seq<nat>, s: Session)
    requires Kept(h, cs, at, s)
    ensures Tracks(h, cs, at, s)
  {
  }

  lemma NoMoreKept(h: Host, before: seq<Command>, at: seq<nat>, s: Session)
    requires Kept(h, before, at, s)
    ensures Kept(h, before + [], at + LinesOf([], s.line), Run(h, s, []))
  {
    assert before + [] == before && at + [] == at;
  }

  lemma RunKept(h: Host, cs: seq<Command>)
    requires NoPipes(h) && Linked(cs)
    ensures Kept(h, cs, LinesOf(cs, 0), Run(h, START, cs))
  {
    StartTracks(h);
    assert [] + cs == cs && [] + LinesOf(cs, 0) == LinesOf(cs, 0);
    RunOnKept(h, [], [], START, cs);
  }

  lemma MoveKept(h: Host, cs: seq<Command>, at: seq<nat>, s: Session, line: nat)
    requires Kept(h, cs, at, s) && s.left.None?
    requires at != [] ==> at[|at|-1] <= line
    requires forall L :: L in s.pending ==> line <= L
    ensures Kept(h, cs, at, s.(line := line))
  {
    MoveTracks(h, cs, at, s, line);
    assert OpenPipes(s.(line := line)) == OpenPipes(s);
  }

  // Main result: whatever numbered pipes are pending, once command k+1 is launched the pipe between
  // k and k+1 is held only where it is used, and no longer by the shell.
  lemma OrdinaryPipeIsPrivate(h: Host, cs: seq<Command>, k: nat)
    requires NoPipes(h) && Linked(cs) && k + 1 < |cs| && cs[k].pipeAfter
    ensures var s := Run(h, START, cs);
      && |s.procs| == |cs|
      && s.procs[k].stdout.WriteEnd?
      && Private(s.procs, k, s.procs[k].stdout.pipe)
      && s.procs[k].stdout.pipe !in OpenPipes(s)
  {
    RunKept(h, cs);
  }

  // ----- Lifetime and number of pending pipes ---------------------------------------------------

  ghost predicate Reach(cs: seq<Command>, bound: nat) {
    forall k :: 0 <= k < |cs| && cs[k].numberedAfter ==> cs[k].pipeNumber <= bound
  }

  lemma {:induction false} IntervalBound(s: set<nat>, low: nat, n: nat)
    requires forall x :: x in s ==> low <= x < low + n
    ensures |s| <= n
  {
    if n == 0 {
      assert s == {};
    } else {
      IntervalBound(s - {low + n - 1}, low, n - 1);
    }
  }

  lemma {:induction false} LineOfMonotone(cs: seq<Command>, j: nat, k: nat)
    requires j <= k <= |cs|
    ensures LineOf(cs, j) <= LineOf(cs, k)
  {
    if j < k { LineOfMonotone(cs, j, k - 1); }
  }

  lemma {:induction false} LinesOfAt(cs: seq<Command>, first: nat, k: nat)
    requires k < |cs|
    ensures LinesOf(cs, first)[k] == first + LineOf(cs, k)
  {
    var n := |cs| - 1;
    if k < n {
      LinesOfAt(cs[..n], first, k);
      assert cs == cs[..n] + [cs[n]];
      LineOfPrefix(cs[..n], cs[n], k);
    }
  }

  // A pending entry lives from its first sender until its own line, and not longer: between lines
  // the keys are the lines from the current one on that have a sender. If no number exceeds `bound`,
  // they all lie in a window of `bound` lines.
  lemma PendingLifetime(h: Host, cs: seq<Command>, bound: nat)
    requires NoPipes(h) && Linked(cs) && Reach(cs, bound)
    ensures var s := Run(h, START, cs);
      && s.line == LineOf(cs, |cs|)
      && (forall L: nat :: L in s.pending <==> Ahead(LinesOf(cs, 0), L) && Fed(cs, LinesOf(cs, 0), L))
      && (forall L: nat :: L in s.pending ==> s.line + (if MidLine(cs) then 1 else 0) <= L)
      && (forall L: nat :: L in s.pending ==> L < s.line + bound + if MidLine(cs) then 1 else 0)
      && |s.pending| <= bound
      && (s.left.Some? <==> MidLine(cs))
  {
    hide Run, Separate, WritersExact, ReadersGone, Wired;
    var s := Run(h, START, cs);
    RunTracks(h, cs);
    var low := s.line + if MidLine(cs) then 1 else 0;
    forall L: nat | L in s.pending ensures low <= L < low + bound {
      var j :| 0 <= j < |cs| && Sends(cs, LinesOf(cs, 0), j, L);
      assert Coherent(cs[j]);
      LinesOfAt(cs, 0, j);
      LinesOfAt(cs, 0, |cs| - 1);
      LineOfMonotone(cs, j + 1, |cs|);
      LineOfMonotone(cs, j, |cs|);
    }
    IntervalBound(s.pending.Keys, low, bound);
    assert |s.pending| == |s.pending.Keys|;
  }
}
