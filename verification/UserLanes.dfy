/** The ordinary and numbered pipes of the users of the single-process server, next to the pipes that
    users send each other: each user has a session of its own, as the shell has. */
module UserLanes {
  import opened Outcomes
  import opened Commands
  import opened Engine
  import opened Wiring
  import opened Descriptors
  import opened ShellProcess
  import opened UserPipeHistory
  import opened UserPipes

  // The open pipes of the server by number.
  function Opens(pairs: map<nat, FdPair>): map<nat, OpenPipe> {
    map p | p in pairs :: OpenPipe(p, pairs[p])
  }

  function AsOpen(pairs: map<nat, FdPair>, p: Option<nat>): Option<OpenPipe> {
    if p.Some? && p.value in pairs then Some(OpenPipe(p.value, pairs[p.value])) else None
  }

  ghost predicate Unsent(h: seq<Event>, p: nat) {
    forall i, j :: Outstanding(h, i, j) != Some(p)
  }

  // Open pipes that are no user pipes.
  ghost predicate Owned(ps: set<nat>, pairs: map<nat, FdPair>, h: seq<Event>) {
    forall p :: p in ps ==> p in pairs && Unsent(h, p)
  }

  // One user's line counter and numbered pipes are the session's; the session's pipes are open.
  ghost predicate Lane(s: Session, numbered: map<nat, OpenPipe>, pairs: map<nat, FdPair>, h: seq<Event>, made: nat) {
    && Separate(s) && s.pipes <= made
    && Slots(s.line, s.pending, Opens(pairs), numbered)
    && (s.left.Some? ==> s.line !in s.pending)
    && Owned(OpenPipes(s), pairs, h)
  }

  // ----- What a command of one user leaves alone -------------------------------------------------------------

  // Between the two histories only the pipe `made` was sent.
  ghost predicate Moved(h: seq<Event>, after: seq<Event>, made: nat) {
    forall i, j :: Outstanding(after, i, j) == None || Outstanding(after, i, j) == Some(made) || Outstanding(after, i, j) == Outstanding(h, i, j)
  }

  lemma CommandMoves(h: seq<Event>, sent: seq<Event>, taken: seq<Event>, made: nat)
    requires |sent| <= 1 && (sent != [] ==> sent[0].Piped? && sent[0].pipe == made)
    requires |taken| <= 1 && (taken != [] ==> taken[0].Received?)
    ensures Moved(h, h + sent + taken, made)
    ensures sent == [] ==> forall p :: Unsent(h, p) ==> Unsent(h + sent + taken, p)
  {
    var middle := h + sent;
    if sent == [] { assert middle == h; } else { Appended(h, sent[0]); assert middle == h + [sent[0]]; }
    assert Moved(h, middle, made);
    if taken == [] { assert middle + taken == middle; } else { Appended(middle, taken[0]); assert middle + taken == middle + [taken[0]]; }
    assert forall i, j :: Outstanding(middle + taken, i, j) == None || Outstanding(middle + taken, i, j) == Outstanding(middle, i, j);
  }

  lemma SlotsSame(line: nat, pending: map<nat, nat>, a: map<nat, OpenPipe>, b: map<nat, OpenPipe>, numbered: map<nat, OpenPipe>)
    requires Slots(line, pending, a, numbered)
    requires forall L :: L in pending ==> pending[L] in b && (pending[L] in a ==> b[pending[L]] == a[pending[L]])
    ensures Slots(line, pending, b, numbered)
  {
  }

  lemma OpensSame(s: Session, pairs: map<nat, FdPair>, after: map<nat, FdPair>)
    requires SamePlaces(pairs, after) && OpenPipes(s) <= pairs.Keys && OpenPipes(s) <= after.Keys
    ensures forall L :: L in s.pending ==> s.pending[L] in Opens(after) && Opens(after)[s.pending[L]] == Opens(pairs)[s.pending[L]]
  {
    assert forall L :: L in s.pending ==> s.pending[L] in OpenPipes(s);
  }

  lemma LaneStays(s: Session, numbered: map<nat, OpenPipe>, pairs: map<nat, FdPair>, h: seq<Event>, made: nat,
                  after: map<nat, FdPair>, later: seq<Event>, sent: nat, next: nat)
    requires Lane(s, numbered, pairs, h, made) && made <= sent && made <= next
    requires SamePlaces(pairs, after) && Moved(h, later, sent) && OpenPipes(s) <= after.Keys
    ensures Lane(s, numbered, after, later, next)
  {
    hide Outstanding;
    OpensSame(s, pairs, after);
    SlotsSame(s.line, s.pending, Opens(pairs), Opens(after), numbered);
    forall p | p in OpenPipes(s) ensures p in after && Unsent(later, p) {
      assert p in pairs && Unsent(h, p) && p < s.pipes;
    }
  }

  // ----- What a command of one user does to the own session ---------------------------------------------------

  lemma OwnStep(h: Host, s: Session, c: Command, numbered: map<nat, OpenPipe>, pairs: map<nat, FdPair>, hist: seq<Event>,
                after: map<nat, FdPair>, later: seq<Event>, next: nat)
    requires NoPipes(h) && Separate(s) && Coherent(c) && c.pipeBefore == s.left.Some?
    requires AtFork(s, c) - ToSet(OutPipe(s, c)) <= pairs.Keys && PendingAtFork(s, c).Values <= pairs.Keys
    requires Slots(s.line, PendingAtFork(s, c), Opens(pairs), numbered)
    requires SamePlaces(pairs, after) && AtFork(s, c) - ToSet(s.left) - ToSet(DuePipe(s)) <= after.Keys
    requires forall p :: p in AtFork(s, c) - ToSet(s.left) - ToSet(DuePipe(s)) ==> Unsent(later, p)
    requires Step(h, s, c).pipes <= next
    ensures Lane(Step(h, s, c), numbered - {Wrap(s.line)}, after, later, next)
  {
    hide Outstanding, Slots, Separate, Unsent;
    var t, gone := Step(h, s, c), ToSet(s.left) + ToSet(DuePipe(s));
    StepSeparate(h, s, c);
    StepClosesInputs(h, s, c);
    PipesDiffer(s, c);
    SlotErase(s.line, PendingAtFork(s, c), Opens(pairs), numbered, gone, t.line);
    assert forall L :: L in t.pending ==> t.pending[L] in OpenPipes(t);
    assert forall L :: L in t.pending ==> t.pending[L] in PendingAtFork(s, c).Values;
    SlotsSame(t.line, t.pending, Opens(pairs) - gone, Opens(after), numbered - {Wrap(s.line)});
  }

  // ----- What a user's processes read and write ----------------------------------------------------------------

  // A launched command: what its user pipe arguments found, and its descriptors at exec.
  datatype Child = Child(command: Command, made: nat, waiting: Option<nat>, sends: bool, table: Table)

  // The child's standard descriptors are the session's, except that a user pipe stands in where the
  // command would read or write what the server itself has, and that a failed `<n` costs a command
  // its pipe to the right.
  ghost predicate Plugged(h: Host, ch: Child, p: Proc) {
    var c, t := ch.command, ch.table;
    && Standard(t)
    && t[0] == (if p.stdin != h.stdin || !c.userIn then p.stdin else if ch.waiting.Some? then ReadEnd(ch.waiting.value) else DevNull)
    && t[1] == (if c.pipeAfter && c.userIn && ch.waiting.None? then h.stdout
                else if !c.userOut then p.stdout
                else if ch.sends then WriteEnd(ch.made) else DevNull)
    && t[2] == if c.pipeStderr then t[1] else h.stderr
  }

  function CommandsIn(chs: seq<Child>): seq<Command> {
    if chs == [] then [] else CommandsIn(chs[..|chs|-1]) + [chs[|chs|-1].command]
  }

  // A user's commands are wired as the user's lines say, each at its own line.
  ghost predicate Followed(h: Host, chs: seq<Child>, at: seq<nat>, s: Session) {
    && Tracks(h, CommandsIn(chs), at, s) && Linked(CommandsIn(chs))
    && |chs| == |s.procs|
    && (forall k :: 0 <= k < |chs| ==> Plugged(h, chs[k], s.procs[k]))
  }

  // Pipes that other users make are skipped in the numbering and change nothing else.
  lemma MorePipes(h: Host, cs: seq<Command>, at: seq<nat>, s: Session, made: nat)
    requires Tracks(h, cs, at, s) && s.pipes <= made
    ensures Tracks(h, cs, at, s.(pipes := made))
  {
    assert OpenPipes(s.(pipes := made)) == OpenPipes(s);
  }

  lemma OneMoreFollowed(h: Host, chs: seq<Child>, at: seq<nat>, s: Session, made: nat, ch: Child)
    requires NoPipes(h) && Followed(h, chs, at, s) && s.pipes <= made && Linked(CommandsIn(chs) + [ch.command])
    requires Plugged(h, ch, Launch(h, s.(pipes := made), ch.command))
    ensures Followed(h, chs + [ch], at + [s.line], Step(h, s.(pipes := made), ch.command))
  {
    hide Plugged, Tracks, Launch, Linked;
    OneMoreCommand(chs, ch);
    MorePipes(h, CommandsIn(chs), at, s, made);
    StepTracks(h, CommandsIn(chs), at, s.(pipes := made), ch.command);
    assert (chs + [ch])[..|chs|] == chs;
  }

  lemma OneMoreCommand(chs: seq<Child>, ch: Child)
    ensures CommandsIn(chs + [ch]) == CommandsIn(chs) + [ch.command]
  {
    assert (chs + [ch])[..|chs|] == chs;
  }

  // What a command does to the user pipes, and what a list of commands does.
  function EventsOf(me: nat, ch: Child): seq<Event> {
    (if ch.sends && ch.command.outId >= 0 then [Piped(me, ch.command.outId, ch.made)] else [])
    + (if ch.waiting.Some? && ch.command.inId >= 0 then [Received(ch.command.inId, me)] else [])
  }

  function Events(me: nat, chs: seq<Child>): seq<Event> {
    if chs == [] then [] else Events(me, chs[..|chs|-1]) + EventsOf(me, chs[|chs|-1])
  }

  // Command ch, run after history h, found the pipe that waited and the slot that was free.
  predicate AnsweredOne(h: seq<Event>, users: set<nat>, me: nat, ch: Child) {
    var c := ch.command;
    && ch.waiting == (if c.userIn && c.inId >= 0 then Outstanding(h, c.inId, me) else None)
    && ch.sends == (c.userOut && c.outId >= 0 && c.outId in users && Outstanding(h, me, c.outId).None?)
  }

  predicate Answered(h: seq<Event>, users: set<nat>, me: nat, chs: seq<Child>) {
    chs != [] ==>
      && Answered(h, users, me, chs[..|chs|-1])
      && AnsweredOne(h + Events(me, chs[..|chs|-1]), users, me, chs[|chs|-1])
  }

  function Tables(chs: seq<Child>): seq<Table> {
    if chs == [] then [] else Tables(chs[..|chs|-1]) + [chs[|chs|-1].table]
  }

  lemma OneMoreAnswered(h: seq<Event>, users: set<nat>, me: nat, chs: seq<Child>, ch: Child)
    requires Answered(h, users, me, chs) && AnsweredOne(h + Events(me, chs), users, me, ch)
    ensures Answered(h, users, me, chs + [ch])
    ensures Events(me, chs + [ch]) == Events(me, chs) + EventsOf(me, ch)
    ensures Tables(chs + [ch]) == Tables(chs) + [ch.table]
    ensures CommandsIn(chs + [ch]) == CommandsIn(chs) + [ch.command]
  {
    assert (chs + [ch])[..|chs|] == chs;
  }

  lemma NothingAnswered(h: seq<Event>, users: set<nat>, me: nat)
    ensures Answered(h, users, me, []) && Events(me, []) == [] && Tables([]) == [] && CommandsIn([]) == []
  {
  }

  // A pipe that waits for me goes on waiting until a command of mine names its sender.
  lemma StillWaiting(h: seq<Event>, me: nat, ch: Child, from: nat)
    requires Outstanding(h, from, me).Some?
    requires ch.waiting.Some? ==> ch.command.inId != from
    ensures Outstanding(h + EventsOf(me, ch), from, me).Some?
  {
    var c := ch.command;
    var sent := if ch.sends && c.outId >= 0 then [Piped(me, c.outId, ch.made)] else [];
    var taken := if ch.waiting.Some? && c.inId >= 0 then [Received(c.inId, me)] else [];
    var middle := h + sent;
    assert EventsOf(me, ch) == sent + taken;
    if sent == [] { assert middle == h; } else { Appended(h, sent[0]); assert middle == h + [sent[0]]; }
    assert Outstanding(middle, from, me).Some?;
    if taken == [] { assert middle + taken == middle; } else { Appended(middle, taken[0]); assert middle + taken == middle + [taken[0]]; }
    assert h + (sent + taken) == middle + taken;
  }

  // Whether a pipe from that user waits after a command that is launched for me.
  predicate WaitsAfter(waits: bool, from: int, me: nat, c: Command) {
    (c.userOut && c.outId == me && from == me) || (waits && !(c.userIn && c.inId == from))
  }

  lemma WaitsNext(h: seq<Event>, users: set<nat>, me: nat, ch: Child, from: nat)
    requires AnsweredOne(h, users, me, ch) && me in users
    requires !(ch.command.userIn && ch.command.userOut && ch.command.inId == me && ch.command.outId == me)
    ensures Outstanding(h + EventsOf(me, ch), from, me).Some? <==> WaitsAfter(Outstanding(h, from, me).Some?, from, me, ch.command)
  {
    var c := ch.command;
    var sent := if ch.sends && c.outId >= 0 then [Piped(me, c.outId, ch.made)] else [];
    var taken := if ch.waiting.Some? && c.inId >= 0 then [Received(c.inId, me)] else [];
    var middle := h + sent;
    assert EventsOf(me, ch) == sent + taken;
    if sent == [] { assert middle == h; } else { Appended(h, sent[0]); assert middle == h + [sent[0]]; }
    if taken == [] { assert middle + taken == middle; } else { Appended(middle, taken[0]); assert middle + taken == middle + [taken[0]]; }
    assert h + (sent + taken) == middle + taken;
  }

  lemma FollowedIsWired(h: Host, chs: seq<Child>, at: seq<nat>, s: Session)
    requires Followed(h, chs, at, s)
    ensures Wired(h, CommandsIn(chs), at, s.procs)
  {
  }

  // A session that goes on at another line.
  lemma MovedLane(s: Session, numbered: map<nat, OpenPipe>, pairs: map<nat, FdPair>, h: seq<Event>, made: nat, line: nat)
    requires Lane(s, numbered, pairs, h, made) && s.left.None?
    requires forall L :: L in s.pending ==> line <= L <= line + INT_MAX
    ensures Lane(s.(line := line), numbered, pairs, h, made)
  {
    hide Outstanding, Unsent;
    assert OpenPipes(s.(line := line)) == OpenPipes(s);
  }

  lemma MovedFollowed(host: Host, chs: seq<Child>, at: seq<nat>, s: Session, line: nat)
    requires Followed(host, chs, at, s) && s.left.None?
    requires at != [] ==> at[|at|-1] <= line
    requires forall L :: L in s.pending ==> line <= L
    ensures Followed(host, chs, at, s.(line := line))
  {
    hide Tracks, Linked, Plugged;
    MoveTracks(host, CommandsIn(chs), at, s, line);
  }

  lemma FollowedPassesNothing(host: Host, chs: seq<Child>, at: seq<nat>, s: Session)
    requires Followed(host, chs, at, s)
    ensures Linked(CommandsIn(chs)) && (s.left.Some? <==> MidLine(CommandsIn(chs)))
    ensures at != [] ==> at[|at|-1] <= s.line
    ensures forall L :: L in s.pending ==> s.line <= L
  {
    NothingPassed(host, CommandsIn(chs), at, s);
  }

  // ----- Before and after one command --------------------------------------------------------------------------

  // The user's session at the moment of a command: its next pipe is the server's next pipe.
  function Numbered(s: Session, made: nat): Session {
    s.(pipes := made)
  }

  // The pipe for `|n` is there, new or not, and the books say so.
  ghost predicate TargetReady(s: Session, c: Command, before: map<nat, FdPair>, h: seq<Event>,
                              pairs: map<nat, FdPair>, made: nat, numbered: map<nat, OpenPipe>, target: Option<OpenPipe>) {
    var isNew := c.numberedAfter && OutPipe(s, c) == Some(s.pipes);
    && pairs.Keys == before.Keys + (if isNew then {s.pipes} else {}) && SamePlaces(before, pairs)
    && made == s.pipes + (if isNew then 1 else 0)
    && Slots(s.line, PendingAtFork(s, c), Opens(pairs), numbered)
    && target.Some? == c.kind.NumberedPipe?
    && (target.Some? ==> OutPipe(s, c) == Some(target.value.id) && Known(pairs, target) && Unsent(h, target.value.id))
  }

  function DueFor(c: Command, numbered: map<nat, OpenPipe>, line: nat): Option<OpenPipe> {
    if !c.pipeBefore && line in numbered then Some(numbered[line]) else None
  }

  lemma LaneNumbered(s: Session, numbered: map<nat, OpenPipe>, pairs: map<nat, FdPair>, h: seq<Event>, made: nat)
    requires Lane(s, numbered, pairs, h, made)
    ensures Lane(Numbered(s, made), numbered, pairs, h, made)
    ensures OpenPipes(Numbered(s, made)) == OpenPipes(s) && s.pipes <= made
  {
    assert OpenPipes(Numbered(s, made)) == OpenPipes(s);
  }

  // The pipes a command is given: its neighbour's, the due one and the target, all open, all different.
  lemma GivenPipes(s: Session, c: Command, before: map<nat, FdPair>, h: seq<Event>,
                   pairs: map<nat, FdPair>, made: nat, numbered0: map<nat, OpenPipe>, numbered: map<nat, OpenPipe>, target: Option<OpenPipe>)
    requires Lane(s, numbered0, before, h, s.pipes) && Coherent(c) && c.pipeBefore == s.left.Some?
    requires TargetReady(s, c, before, h, pairs, made, numbered, target)
    ensures var left, due := AsOpen(before, s.left), DueFor(c, numbered, Wrap(s.line));
      && left.Some? == c.pipeBefore && Ids(left) == ToSet(s.left) && Known(pairs, left)
      && Ids(due) == ToSet(DuePipe(s)) && Known(pairs, due) && (due.Some? ==> left.None?)
      && (forall p :: p in Ids(left) + Ids(due) ==> p in OpenPipes(s) && Unsent(h, p))
      && Ids(left) !! Ids(due) !! Ids(target)
      && InPipe(s, c) == (if left.Some? then Some(left.value.id) else if due.Some? then Some(due.value.id) else None)
  {
    hide Outstanding, Slots;
    PipesDiffer(s, c);
    assert forall L :: L in s.pending ==> s.pending[L] in OpenPipes(s);
    SlotLookup(s.line, PendingAtFork(s, c), Opens(pairs), numbered, s.line);
    assert s.line in PendingAtFork(s, c) <==> s.line in s.pending;
  }

  // What one command has done to the server's pipes.
  ghost predicate PipesAfter(c: Command, made: nat, sends: bool, gone: set<nat>, pairs: map<nat, FdPair>, after: map<nat, FdPair>) {
    && after.Keys == pairs.Keys + (if c.pipeAfter || sends then {made} else {}) - gone
    && SamePlaces(pairs, after)
  }

  lemma OwnAfter(host: Host, s: Session, c: Command, before: map<nat, FdPair>, h: seq<Event>,
                 pairs: map<nat, FdPair>, made: nat, numbered0: map<nat, OpenPipe>, numbered: map<nat, OpenPipe>, target: Option<OpenPipe>,
                 sends: bool, received: set<nat>, after: map<nat, FdPair>, later: seq<Event>, next: nat)
    requires NoPipes(host) && Lane(s, numbered0, before, h, s.pipes) && Coherent(c) && c.pipeBefore == s.left.Some?
    requires TargetReady(s, c, before, h, pairs, made, numbered, target)
    requires PipesAfter(c, made, sends, ToSet(s.left) + ToSet(DuePipe(s)) + received, pairs, after)
    requires forall p :: p in received ==> !Unsent(h, p) && p != made
    requires Moved(h, later, made) && (c.pipeAfter ==> Unsent(later, made)) && made <= next
    requires (c.pipeAfter ==> made < next)
    ensures Lane(Step(host, s, c), numbered - {Wrap(s.line)}, after, later, next)
  {
    hide Outstanding, Slots, Separate, Unsent, Moved;
    AtForkIs(s, c);
    forall p | p in AtFork(s, c) - ToSet(s.left) - ToSet(DuePipe(s)) ensures p in after && Unsent(later, p) {
      StillOwned(s, c, before, h, pairs, made, numbered0, numbered, target, sends, received, after, later, p);
    }
    PendingValues(s, c);
    OwnStep(host, s, c, numbered, pairs, h, after, later, next);
  }

  lemma StillOwned(s: Session, c: Command, before: map<nat, FdPair>, h: seq<Event>,
                   pairs: map<nat, FdPair>, made: nat, numbered0: map<nat, OpenPipe>, numbered: map<nat, OpenPipe>, target: Option<OpenPipe>,
                   sends: bool, received: set<nat>, after: map<nat, FdPair>, later: seq<Event>, p: nat)
    requires Lane(s, numbered0, before, h, s.pipes) && Coherent(c)
    requires TargetReady(s, c, before, h, pairs, made, numbered, target)
    requires PipesAfter(c, made, sends, ToSet(s.left) + ToSet(DuePipe(s)) + received, pairs, after)
    requires forall p :: p in received ==> !Unsent(h, p) && p != made
    requires Moved(h, later, made) && (c.pipeAfter ==> Unsent(later, made))
    requires p in AtFork(s, c) - ToSet(s.left) - ToSet(DuePipe(s))
    ensures p in after && Unsent(later, p)
  {
    hide Outstanding, Slots;
    AtForkIs(s, c);
    if p in OpenPipes(s) {
      assert Unsent(h, p) && p < s.pipes;
    } else {
      assert OutPipe(s, c) == Some(p);
    }
  }

  lemma PendingValues(s: Session, c: Command)
    ensures forall p :: p in PendingAtFork(s, c).Values ==> p in OpenPipes(s) || (c.numberedAfter && OutPipe(s, c) == Some(p))
  {
    assert forall L :: L in s.pending ==> s.pending[L] in OpenPipes(s);
  }

  // A user who has just logged in.
  lemma FreshLane(host: Host, pairs: map<nat, FdPair>, h: seq<Event>, made: nat)
    requires NoPipes(host)
    ensures Lane(START, map[], pairs, h, made) && Followed(host, [], [], START) && OpenPipes(START) == {}
  {
    StartTracks(host);
  }

  lemma LeftMoves(h: seq<Event>, me: nat, made: nat)
    ensures Moved(h, h + [Left(me)], made)
  {
    Appended(h, Left(me));
  }

  lemma LaneKept(s: Session, numbered: map<nat, OpenPipe>, pairs: map<nat, FdPair>, h: seq<Event>, made: nat, later: seq<Event>)
    requires Lane(s, numbered, pairs, h, made) && Moved(h, later, made)
    ensures Lane(s, numbered, pairs, later, made)
  {
    hide Outstanding, Slots, Separate;
    LaneStays(s, numbered, pairs, h, made, pairs, later, made, made);
  }

  // ----- Every open pipe is somebody's -------------------------------------------------------------------------

  // Pipe p waits between two users.
  ghost predicate Waits(h: seq<Event>, p: nat) {
    exists i, j :: Outstanding(h, i, j) == Some(p)
  }

  // A command closes a waiting pipe only by receiving it, and its own send waits.
  lemma WaitsOn(h: seq<Event>, users: set<nat>, me: nat, ch: Child, p: nat)
    requires AnsweredOne(h, users, me, ch) && Waits(h, p) && ch.waiting != Some(p)
    ensures Waits(h + EventsOf(me, ch), p)
  {
    var i, j :| Outstanding(h, i, j) == Some(p);
    var c := ch.command;
    var sent := if ch.sends && c.outId >= 0 then [Piped(me, c.outId, ch.made)] else [];
    var taken := if ch.waiting.Some? && c.inId >= 0 then [Received(c.inId, me)] else [];
    var middle := h + sent;
    if sent == [] { assert middle == h; } else { Appended(h, sent[0]); assert middle == h + [sent[0]]; }
    assert Outstanding(middle, i, j) == Some(p);
    if taken == [] { assert middle + taken == middle; } else { Appended(middle, taken[0]); assert middle + taken == middle + [taken[0]]; }
    assert h + EventsOf(me, ch) == middle + taken;
    assert Outstanding(h + EventsOf(me, ch), i, j) == Some(p);
  }

  lemma SentWaits(h: seq<Event>, users: set<nat>, me: nat, ch: Child)
    requires AnsweredOne(h, users, me, ch) && ch.sends
    requires !(ch.command.userIn && ch.command.userOut && ch.command.inId == me && ch.command.outId == me)
    ensures Waits(h + EventsOf(me, ch), ch.made)
  {
    var c := ch.command;
    var to: nat := c.outId;
    var taken := if ch.waiting.Some? && c.inId >= 0 then [Received(c.inId, me)] else [];
    var middle := h + [Piped(me, to, ch.made)];
    Appended(h, Piped(me, to, ch.made));
    assert Outstanding(middle, me, to) == Some(ch.made);
    if taken == [] { assert middle + taken == middle; } else { Appended(middle, taken[0]); assert middle + taken == middle + [taken[0]]; }
    assert h + EventsOf(me, ch) == middle + taken;
    assert Outstanding(h + EventsOf(me, ch), me, to) == Some(ch.made);
  }

  // After a command the open pipes are those from before that it did not close, what the session now
  // holds, and what was sent.
  lemma OwnAccounted(host: Host, s: Session, c: Command, before: map<nat, FdPair>, h: seq<Event>,
                     pairs: map<nat, FdPair>, made: nat, numbered0: map<nat, OpenPipe>, numbered: map<nat, OpenPipe>, target: Option<OpenPipe>,
                     sends: bool, received: set<nat>, after: map<nat, FdPair>)
    requires Lane(s, numbered0, before, h, s.pipes) && Coherent(c) && c.pipeBefore == s.left.Some?
    requires TargetReady(s, c, before, h, pairs, made, numbered, target)
    requires PipesAfter(c, made, sends, ToSet(s.left) + ToSet(DuePipe(s)) + received, pairs, after)
    ensures after.Keys <= before.Keys - (ToSet(s.left) + ToSet(DuePipe(s)) + received) + OpenPipes(Step(host, s, c)) + (if sends then {made} else {})
    ensures OpenPipes(s) - (ToSet(s.left) + ToSet(DuePipe(s))) <= OpenPipes(Step(host, s, c))
  {
    assert c.pipeAfter ==> OutPipe(s, c) == Some(s.pipes);
    hide Outstanding, Slots, Step, OutPipe, Owned;
    AtForkIs(s, c);
    StepClosesInputs(host, s, c);
    KeptOrOpen(before.Keys, AtFork(s, c), pairs.Keys, ToSet(s.left) + ToSet(DuePipe(s)), received, after.Keys,
               if c.pipeAfter || sends then {made} else {}, if sends then {made} else {});
  }

  lemma KeptOrOpen(before: set<nat>, fork: set<nat>, pairs: set<nat>, gone: set<nat>, received: set<nat>, after: set<nat>,
                   added: set<nat>, sent: set<nat>)
    requires pairs <= before + fork && added <= fork + sent && after == pairs + added - (gone + received)
    ensures after <= before - (gone + received) + (fork - gone) + sent
  {
  }

  // Pipe p waits from or for user me.
  ghost predicate WaitsWith(h: seq<Event>, me: nat, p: nat) {
    exists i, j :: (i == me || j == me) && Outstanding(h, i, j) == Some(p)
  }

  lemma LeavingWaits(h: seq<Event>, me: nat, p: nat)
    requires Waits(h, p) && !WaitsWith(h, me, p)
    ensures Waits(h + [Left(me)], p)
  {
    var i, j :| Outstanding(h, i, j) == Some(p);
    Appended(h, Left(me));
    assert Outstanding(h + [Left(me)], i, j) == Some(p);
  }
}
