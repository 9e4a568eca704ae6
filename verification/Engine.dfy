/** What running commands means, without descriptors: which process reads and writes which pipe.
    `Run` is the abstract machine that the descriptor-level shell refines; the second half of the
    module proves that it computes the declarative meaning "logical line L feeds line L+n". */
module Engine {
  import opened Outcomes
  import opened Commands

  // An open file description. `Inherited(f)` is what descriptor f meant when the shell started.
  datatype End = Inherited(fd: nat) | ReadEnd(pipe: nat) | WriteEnd(pipe: nat) | File(name: string) | DevNull

  // A launched process: its three standard descriptors and everything else it holds.
  datatype Proc = Proc(stdin: End, stdout: End, stderr: End, others: set<End>)

  // What the shell was started with; `writable` are the files that can be opened for writing.
  datatype Host = Host(stdin: End, stdout: End, stderr: End, others: set<End>, writable: set<string>)

  // `pending` maps a future logical line to the pipe that will feed it, `left` is the ordinary
  // pipe waiting for the next command, `pipes` counts the pipes created so far.
  datatype Session = Session(line: nat, pending: map<nat, nat>, left: Option<nat>, pipes: nat, procs: seq<Proc>)

  const START := Session(0, map[], None, 0, [])

  ghost predicate NoPipes(h: Host) {
    && h.stdin.Inherited? && h.stdout.Inherited? && h.stderr.Inherited?
    && (forall e :: e in h.others ==> e.Inherited?)
  }

  function Target(s: Session, c: Command): nat {
    s.line + c.pipeNumber
  }

  // The pipe the command reads, if any.
  function InPipe(s: Session, c: Command): Option<nat> {
    if c.pipeBefore then s.left
    else if s.line in s.pending then Some(s.pending[s.line])
    else None
  }

  // The pipe the command writes, if any; `s.pipes` names a new one.
  function OutPipe(s: Session, c: Command): Option<nat> {
    if c.pipeAfter then Some(s.pipes)
    else if c.numberedAfter then Some(if Target(s, c) in s.pending then s.pending[Target(s, c)] else s.pipes)
    else None
  }

  function PendingAtFork(s: Session, c: Command): map<nat, nat> {
    if c.numberedAfter && OutPipe(s, c).Some? then s.pending[Target(s, c) := OutPipe(s, c).value] else s.pending
  }

  function ToSet(p: Option<nat>): set<nat> {
    match p case None => {} case Some(x) => {x}
  }

  // The pipes whose two ends the shell holds between commands.
  function OpenPipes(s: Session): set<nat> {
    s.pending.Values + ToSet(s.left)
  }

  function BothEnds(pipes: set<nat>): set<End> {
    (set p | p in pipes :: ReadEnd(p)) + (set p | p in pipes :: WriteEnd(p))
  }

  // The pipes that the child inherits and does not use itself.
  function Leftover(s: Session, c: Command): set<nat> {
    PendingAtFork(s, c).Values + ToSet(s.left) - ToSet(InPipe(s, c)) - ToSet(OutPipe(s, c))
  }

  // A child with the given pipes (or file) on its standard descriptors and both ends of `rest`.
  function Spawn(h: Host, input: Option<nat>, output: Option<nat>, stderrToo: bool, file: Option<string>, rest: set<nat>): Proc {
    Proc(match input case Some(p) => ReadEnd(p) case None => h.stdin,
         match output case Some(p) => WriteEnd(p) case None => if file.Some? then File(file.value) else h.stdout,
         match output case Some(p) => if stderrToo then WriteEnd(p) else h.stderr case None => h.stderr,
         h.others + BothEnds(rest) + (if file.Some? then {File(file.value)} else {}))
  }

  function OutFile(h: Host, c: Command): Option<string> {
    if c.kind.Redirect? && c.fileName in h.writable then Some(c.fileName) else None
  }

  function Launch(h: Host, s: Session, c: Command): Proc {
    Spawn(h, InPipe(s, c), OutPipe(s, c), c.pipeStderr, OutFile(h, c), Leftover(s, c))
  }

  function Step(h: Host, s: Session, c: Command): Session {
    Session(if c.pipeAfter then s.line else s.line + 1,
            PendingAtFork(s, c) - {s.line},
            if c.pipeAfter then OutPipe(s, c) else None,
            if OutPipe(s, c) == Some(s.pipes) then s.pipes + 1 else s.pipes,
            s.procs + [Launch(h, s, c)])
  }

  function Run(h: Host, s: Session, cs: seq<Command>): Session {
    if cs == [] then s else Step(h, Run(h, s, cs[..|cs|-1]), cs[|cs|-1])
  }

  lemma {:induction false} RunAppend(h: Host, s: Session, a: seq<Command>, b: seq<Command>)
    ensures Run(h, s, a + b) == Run(h, Run(h, s, a), b)
    decreases |b|
  {
    if b == [] {
      assert a + b == a;
    } else {
      assert (a + b)[..|a + b| - 1] == a + b[..|b|-1];
      RunAppend(h, s, a, b[..|b|-1]);
    }
  }

  lemma RunSnoc(h: Host, s: Session, cs: seq<Command>, k: nat)
    requires k < |cs|
    ensures Run(h, s, cs[..k+1]) == Step(h, Run(h, s, cs[..k]), cs[k])
  {
    assert cs[..k+1][..k] == cs[..k];
  }

  // ----- The declarative meaning --------------------------------------------------------------

  // The logical line of command k of a line of input after line of input: one more after every command
  // that does not end in `|`.
  function LineOf(cs: seq<Command>, k: nat): nat
    requires k <= |cs|
  {
    if k == 0 then 0 else LineOf(cs, k - 1) + if cs[k-1].pipeAfter then 0 else 1
  }

  // The lines of all commands, from line `first` on.
  function LinesOf(cs: seq<Command>, first: nat): (at: seq<nat>)
    ensures |at| == |cs|
  {
    if cs == [] then [] else LinesOf(cs[..|cs|-1], first) + [first + LineOf(cs, |cs| - 1)]
  }

  // In what follows command k runs at line at[k].

  // Command j was asked to feed logical line L.
  predicate Sends(cs: seq<Command>, at: seq<nat>, j: nat, L: nat)
    requires j < |cs| == |at|
  {
    cs[j].kind.NumberedPipe? && at[j] + cs[j].pipeNumber == L
  }

  // Command k opens its logical line and command j was asked to feed that line.
  predicate Feeds(cs: seq<Command>, at: seq<nat>, j: nat, k: nat)
    requires j < |cs| == |at| && k < |cs|
  {
    !cs[k].pipeBefore && (k > 0 ==> at[k-1] < at[k]) && Sends(cs, at, j, at[k])
  }

  // Where command k reads from.
  ghost predicate WiredIn(h: Host, cs: seq<Command>, at: seq<nat>, ps: seq<Proc>, k: nat)
    requires |ps| == |cs| == |at| && k < |cs|
  {
    if cs[k].pipeBefore then
      && k > 0
      && ps[k-1].stdout.WriteEnd?
      && ps[k].stdin == ReadEnd(ps[k-1].stdout.pipe)
      && (forall j :: 0 <= j < |cs| && ps[j].stdout == ps[k-1].stdout ==> j == k - 1)
    else if exists j :: 0 <= j < k && Feeds(cs, at, j, k) then
      && ps[k].stdin.ReadEnd?
      && (forall j :: 0 <= j < |cs| ==> (ps[j].stdout == WriteEnd(ps[k].stdin.pipe) <==> j < k && Feeds(cs, at, j, k)))
    else
      ps[k].stdin == h.stdin
  }

  // Where command k writes to.
  ghost predicate WiredOut(h: Host, cs: seq<Command>, ps: seq<Proc>, k: nat)
    requires |ps| == |cs| && k < |cs|
  {
    && ps[k].stderr == (if cs[k].pipeStderr then ps[k].stdout else h.stderr)
    && (cs[k].pipeAfter || cs[k].numberedAfter ==> ps[k].stdout.WriteEnd?)
    && (!cs[k].pipeAfter && !cs[k].numberedAfter ==>
          ps[k].stdout == if cs[k].kind.Redirect? && cs[k].fileName in h.writable then File(cs[k].fileName) else h.stdout)
  }

  // No two processes read the same pipe.
  ghost predicate OneReader(ps: seq<Proc>) {
    forall i, j :: 0 <= i < j < |ps| && ps[i].stdin.ReadEnd? ==> ps[i].stdin != ps[j].stdin
  }

  ghost predicate Wired(h: Host, cs: seq<Command>, at: seq<nat>, ps: seq<Proc>) {
    && |ps| == |cs| == |at|
    && OneReader(ps)
    && (forall k :: 0 <= k < |cs| ==> WiredIn(h, cs, at, ps, k))
    && (forall k :: 0 <= k < |cs| ==> WiredOut(h, cs, ps, k))
  }
}
