/** Lines of the users of the single-process server: the loop over the commands of one line, over all
    users' numbered pipes and the pipes they send each other. */
module UserLines {
  import opened Outcomes
  import opened Commands
  import opened Engine
  import opened Wiring
  import opened Descriptors
  import opened ShellProcess
  import opened UserPipeHistory
  import opened UserPipes
  import opened UserLanes
  import ServerParser

  // The part of a logged-in user's record that lines change.
  datatype Client = Client(numberedPipes: map<nat, OpenPipe>, lineCount: nat)

  // What a user has done so far: the session, the launched commands and their lines.
  datatype Course = Course(session: Session, children: seq<Child>, at: seq<nat>)

  const NEWCOMER := Course(START, [], [])

  ghost predicate AllLanes(courses: map<nat, Course>, clients: map<nat, Client>,
                           pairs: map<nat, FdPair>, h: seq<Event>, made: nat) {
    forall u :: u in courses ==> u in clients && Lane(courses[u].session, clients[u].numberedPipes, pairs, h, made)
  }

  // No pipe belongs to two users.
  ghost predicate OwnersDiffer(courses: map<nat, Course>) {
    forall u, v :: u in courses && v in courses && u != v ==> OpenPipes(courses[u].session) !! OpenPipes(courses[v].session)
  }

  ghost predicate AllFollowed(h: Host, courses: map<nat, Course>) {
    forall u :: u in courses ==> Followed(h, courses[u].children, courses[u].at, courses[u].session)
  }

  // Every open pipe is a pending pipe of a logged-in user, waits between two users, or is lost.
  ghost predicate AllAccounted(courses: map<nat, Course>, h: seq<Event>, pairs: map<nat, FdPair>, lost: set<nat>) {
    forall p :: p in pairs ==> OwnedBySome(courses, p) || Waits(h, p) || p in lost
  }

  ghost predicate OwnedBySome(courses: map<nat, Course>, p: nat) {
    exists u :: u in courses && p in OpenPipes(courses[u].session)
  }

  lemma AccountedStep(courses: map<nat, Course>, me: nat, course: Course, h: seq<Event>, users: set<nat>, ch: Child,
                      pairs: map<nat, FdPair>, after: map<nat, FdPair>, gone: set<nat>, lost: set<nat>)
    requires AllAccounted(courses, h, pairs, lost) && me in courses
    requires after.Keys <= pairs.Keys - gone + OpenPipes(course.session) + (if ch.sends then {ch.made} else {})
    requires OpenPipes(courses[me].session) - gone <= OpenPipes(course.session)
    requires ch.waiting.Some? ==> ch.waiting.value in gone
    requires AnsweredOne(h, users, me, ch) && Fits(me, ch.command)
    ensures AllAccounted(courses[me := course], h + EventsOf(me, ch), after, lost)
  {
    hide Outstanding, OpenPipes, AnsweredOne, Waits;
    var more := courses[me := course];
    forall p | p in after ensures OwnedBySome(more, p) || Waits(h + EventsOf(me, ch), p) || p in lost {
      if p in OpenPipes(course.session) {
        assert p in OpenPipes(more[me].session);
      } else if ch.sends && p == ch.made {
        SentWaits(h, users, me, ch);
      } else if OwnedBySome(courses, p) {
        var u :| u in courses && p in OpenPipes(courses[u].session);
        assert p in OpenPipes(more[u].session);
      } else if Waits(h, p) {
        WaitsOn(h, users, me, ch, p);
      }
    }
  }

  // No user is in the middle of a line.
  ghost predicate Rested(courses: map<nat, Course>, clients: map<nat, Client>) {
    forall u :: u in courses && u in clients ==> clients[u].lineCount == Wrap(courses[u].session.line) && courses[u].session.left == None
  }

  // The other users' pipes stay open and where they are; the acting user gets a new record.
  lemma LanesStay(courses: map<nat, Course>, clients: map<nat, Client>, me: nat,
                  before: map<nat, FdPair>, h: seq<Event>, made: nat,
                  after: map<nat, FdPair>, later: seq<Event>, sent: nat, next: nat, gone: set<nat>, course: Course, client: Client)
    requires AllLanes(courses, clients, before, h, made) && OwnersDiffer(courses) && me in courses
    requires made <= sent && made <= next && SamePlaces(before, after) && Moved(h, later, sent)
    requires before.Keys - gone <= after.Keys
    requires forall p :: p in gone ==> p in OpenPipes(courses[me].session) || !Unsent(h, p)
    requires Lane(course.session, client.numberedPipes, after, later, next)
    ensures AllLanes(courses[me := course], clients[me := client], after, later, next)
  {
    forall u | u in courses && u != me ensures Lane(courses[u].session, clients[u].numberedPipes, after, later, next) {
      hide Outstanding, Slots, Separate, Unsent;
      assert forall p :: p in OpenPipes(courses[u].session) ==> p in before && Unsent(h, p) && p !in OpenPipes(courses[me].session);
      LaneStays(courses[u].session, clients[u].numberedPipes, before, h, made, after, later, sent, next);
    }
  }

  lemma OwnersStayApart(h: Host, courses: map<nat, Course>, clients: map<nat, Client>, me: nat, c: Command,
                        pairs: map<nat, FdPair>, hist: seq<Event>, made: nat, course: Course)
    requires AllLanes(courses, clients, pairs, hist, made) && OwnersDiffer(courses) && me in courses && Coherent(c)
    requires course.session == Step(h, Numbered(courses[me].session, made), c)
    ensures OwnersDiffer(courses[me := course])
  {
    hide Outstanding, Slots, Step, Unsent;
    var s := Numbered(courses[me].session, made);
    LaneNumbered(courses[me].session, clients[me].numberedPipes, pairs, hist, made);
    assert OpenPipes(s) == OpenPipes(courses[me].session);
    StepOpens(h, s, c);
    forall u | u in courses && u != me ensures OpenPipes(courses[u].session) !! OpenPipes(Step(h, s, c)) {
      assert Lane(courses[u].session, clients[u].numberedPipes, pairs, hist, made);
      assert forall p :: p in OpenPipes(courses[u].session) ==> p < made;
    }
  }

  lemma FollowedStep(h: Host, courses: map<nat, Course>, me: nat, made: nat, ch: Child, course: Course)
    requires NoPipes(h) && AllFollowed(h, courses) && me in courses
    requires courses[me].session.pipes <= made && Linked(CommandsIn(courses[me].children) + [ch.command])
    requires Plugged(h, ch, Launch(h, Numbered(courses[me].session, made), ch.command))
    requires course == Course(Step(h, Numbered(courses[me].session, made), ch.command), courses[me].children + [ch],
                              courses[me].at + [courses[me].session.line])
    ensures AllFollowed(h, courses[me := course])
  {
    hide Followed, Step, Plugged, Launch;
    OneMoreFollowed(h, courses[me].children, courses[me].at, courses[me].session, made, ch);
  }

  // What the child of a command finds at exec is what the user's session says.
  lemma RanIsPlugged(server: Server, host: Host, s: Session, c: Command, left: Option<OpenPipe>,
          due: Option<OpenPipe>, target: Option<OpenPipe>,
                     made: nat, waiting: Option<nat>, sends: bool, t: Table)
    requires Standard(server.init) && NoPipes(host) && Coherent(c)
    requires host.stdin == server.init[0] && host.stdout == server.init[1] && host.stderr == server.init[2] && host.writable == server.writable
    requires InPipe(s, c) == (if left.Some? then Some(left.value.id) else if due.Some? then Some(due.value.id) else None)
    requires target.Some? == c.kind.NumberedPipe? && (target.Some? ==> OutPipe(s, c) == Some(target.value.id))
    requires c.userOut ==> c.kind.Pipe? && !c.pipeAfter
    requires c.pipeAfter ==> made == s.pipes
    requires server.Ran(c, left, due, target, made, waiting, sends, t)
    ensures Plugged(host, Child(c, made, waiting, sends, t), Launch(host, s, c))
  {
  }

  lemma StepLeft(h: Host, s: Session, c: Command)
    ensures Step(h, s, c).left == if c.pipeAfter then Some(s.pipes) else None
    ensures Step(h, s, c).pipes <= s.pipes + 1
    ensures Step(h, s, c).pipes == s.pipes || OutPipe(s, c) == Some(s.pipes)
  {
  }

  // What the parser and the users guarantee of a single command.
  predicate Fits(me: nat, c: Command) {
    && Coherent(c)
    && (c.userIn ==> c.inId >= 0)
    && (c.userOut ==> c.kind.Pipe? && !c.pipeAfter)
    && !(c.userIn && c.userOut && c.inId == me && c.outId == me)
  }

  // The commands of one line as the server's parser makes them: as in the shell, except that others may
  // stand after `>n`.
  predicate UserChain(cs: seq<Command>) {
    && Linked(cs)
    && (forall k :: 0 <= k < |cs| ==> cs[k].numberedBefore == FollowsNumber(cs, k))
    && (forall k :: 0 <= k < |cs| - 1 ==> cs[k].pipeAfter || cs[k].numberedAfter || cs[k].userOut)
    && (cs != [] ==> !cs[|cs|-1].pipeAfter)
  }

  // A line that the executor runs as it is meant. A redirection that reads a user pipe needs one that
  // waits when its turn comes.
  predicate Runnable(h: seq<Event>, me: nat, commands: seq<Command>) {
    && UserChain(commands)
    && (forall k :: 0 <= k < |commands| ==> Fits(me, commands[k]))
    && LastWaits(h, me, commands)
  }

  predicate LastWaits(h: seq<Event>, me: nat, commands: seq<Command>) {
    LastReads(commands) ==>
      var from: nat := commands[|commands|-1].inId;
      WaitsAt(Outstanding(h, from, me).Some?, from, me, commands, |commands| - 1)
  }

  predicate LastReads(commands: seq<Command>) {
    commands != [] && commands[|commands|-1].kind.Redirect? && commands[|commands|-1].userIn && commands[|commands|-1].inId >= 0
  }

  // Whether a pipe from that user waits before command i, if `waits` says so before the line.
  predicate WaitsAt(waits: bool, from: int, me: nat, commands: seq<Command>, i: nat)
    requires i <= |commands|
  {
    if i == 0 then waits else WaitsAfter(WaitsAt(waits, from, me, commands, i - 1), from, me, commands[i-1])
  }

  // So a last redirection may read a pipe that waits before the line, if no command before it reads it.
  lemma {:induction false} WaitingStays(from: nat, me: nat, commands: seq<Command>, i: nat)
    requires i <= |commands| && forall k :: 0 <= k < i ==> !(commands[k].userIn && commands[k].inId == from)
    ensures WaitsAt(true, from, me, commands, i)
  {
    if i > 0 { WaitingStays(from, me, commands, i - 1); }
  }

  lemma LeftAlone(h: seq<Event>, from: nat, me: nat, commands: seq<Command>)
    requires commands != [] && commands[|commands|-1].inId == from && Outstanding(h, from, me).Some?
    requires forall k :: 0 <= k < |commands| - 1 ==> !(commands[k].userIn && commands[k].inId == from)
    ensures LastWaits(h, me, commands)
  {
    WaitingStays(from, me, commands, |commands| - 1);
  }

  // The lines at which the commands of an input line run, which begins at line `first`: a command moves
  // the others on if it ends in a number, and the end of the input line moves on from the last one.
  function PlacesOf(cs: seq<Command>, first: nat): (at: seq<nat>)
    ensures |at| == |cs|
  {
    if cs == [] then [] else PlacesOf(cs[..|cs|-1], first) + [first + Numbers(cs[..|cs|-1])]
  }

  function Numbers(cs: seq<Command>): nat {
    if cs == [] then 0 else Numbers(cs[..|cs|-1]) + if cs[|cs|-1].kind.NumberedPipe? then 1 else 0
  }

  function LineAfter(cs: seq<Command>, first: nat): nat {
    first + 1 + if cs == [] then 0 else Numbers(cs[..|cs|-1])
  }

  // What the user must see to: numbers that point forward, no negative number after `<`, no
  // pipe from a user to the same user in one command, and no open end.
  predicate Sensible(me: nat, commands: seq<Command>) {
    && (commands != [] ==> !commands[|commands|-1].pipeAfter)
    && (forall k :: 0 <= k < |commands| ==>
          && (commands[k].kind.NumberedPipe? ==> 1 <= commands[k].pipeNumber <= INT_MAX)
          && (commands[k].userIn ==> commands[k].inId >= 0)
          && !(commands[k].userIn && commands[k].userOut && commands[k].inId == me && commands[k].outId == me))
  }

  // The rest the parser sees to.
  lemma ParsedIsRunnable(h: seq<Event>, me: nat, tokens: seq<string>)
    requires ServerParser.ParseFrom(tokens, ServerParser.FRESH).Ok?
    requires var commands := ServerParser.ParseFrom(tokens, ServerParser.FRESH).value;
      Sensible(me, commands) && LastWaits(h, me, commands)
    ensures Runnable(h, me, ServerParser.ParseFrom(tokens, ServerParser.FRESH).value)
  {
    hide ServerParser.ParseFrom;
    ServerParser.ParseIsChain(tokens);
    var commands := ServerParser.ParseFrom(tokens, ServerParser.FRESH).value;
    assert forall k :: 0 <= k < |commands| ==> Fits(me, commands[k]);
  }

  // Where the loop stands before command i of a line that began at line `first`.
  predicate Stands(s: Session, client: Client, commands: seq<Command>, i: nat, first: nat) {
    && i <= |commands|
    && s.left.Some? == (i < |commands| && commands[i].pipeBefore)
    && s.line == (if i == |commands| > 0 then LineAfter(commands, first) else first + Numbers(commands[..i]))
    && Wrap(s.line) == if i == |commands| > 0 then Wrap(client.lineCount + 1) else client.lineCount
  }

  lemma CommandFits(h0: seq<Event>, h: seq<Event>, me: nat, commands: seq<Command>, i: nat, s: Session, client: Client, first: nat)
    requires i < |commands| && Runnable(h0, me, commands)
    requires WaitsSoFar(h0, h, me, commands, i) && Stands(s, client, commands, i, first)
    ensures var c := commands[i];
      && Fits(me, c) && c.pipeBefore == s.left.Some? && client.lineCount == Wrap(s.line)
      && (c.kind.Redirect? && c.userIn ==> Outstanding(h, c.inId, me).Some?)
      && (if i == |commands| - 1 then !c.pipeAfter else Writes(c) || c.userOut)
      && UserChain(commands)
  {
  }

  // The pipe that a last redirection reads has so far fared as the commands before it say.
  ghost predicate WaitsSoFar(h0: seq<Event>, h: seq<Event>, me: nat, commands: seq<Command>, i: nat)
    requires i <= |commands|
  {
    LastReads(commands) ==>
      var from: nat := commands[|commands|-1].inId;
      Outstanding(h, from, me).Some? == WaitsAt(Outstanding(h0, from, me).Some?, from, me, commands, i)
  }

  lemma WaitsOneMore(h0: seq<Event>, h: seq<Event>, users: set<nat>, me: nat, commands: seq<Command>, i: nat, ch: Child)
    requires i < |commands| && WaitsSoFar(h0, h, me, commands, i)
    requires ch.command == commands[i] && Fits(me, ch.command) && AnsweredOne(h, users, me, ch) && me in users
    ensures WaitsSoFar(h0, h + EventsOf(me, ch), me, commands, i + 1)
  {
    if LastReads(commands) { WaitsNext(h, users, me, ch, commands[|commands|-1].inId); }
  }

  // The session after a command; after `>n` the line goes on.
  function Onward(h: Host, s: Session, c: Command, last: bool): Session {
    if c.userOut && !last then Step(h, s, c).(line := s.line) else Step(h, s, c)
  }

  lemma OnwardIs(h: Host, s: Session, c: Command, last: bool)
    ensures Onward(h, s, c, last) == if c.userOut && !last then Step(h, s, c).(line := s.line) else Step(h, s, c)
  {
  }

  lemma NumberedIs(s: Session, made: nat)
    ensures Numbered(s, made).line == s.line
  {
  }

  lemma StandsNext(h: Host, s0: Session, made: nat, client: Client, commands: seq<Command>, i: nat, first: nat, t: Session, next: Client)
    requires i < |commands| && UserChain(commands) && Stands(s0, client, commands, i, first)
    requires commands[i].userOut ==> commands[i].kind.Pipe? && !commands[i].pipeAfter
    requires t == Onward(h, Numbered(s0, made), commands[i], i == |commands| - 1)
    requires next.lineCount == if commands[i].kind.NumberedPipe? && i < |commands| - 1 then Wrap(client.lineCount + 1) else client.lineCount
    ensures Stands(t, next, commands, i + 1, first)
    ensures s0.line == first + Numbers(commands[..i])
  {
    var c, s := commands[i], Numbered(s0, made);
    StepLeft(h, s, c);
    LineMoves(h, s, c, i == |commands| - 1);
    OneMorePlace(commands, i, first);
    assert i + 1 < |commands| ==> commands[i + 1].pipeBefore == FollowsPipe(commands, i + 1);
    hide Step, Linked, Wrap, Numbers;
    assert i + 1 == |commands| ==> LineAfter(commands, first) == first + 1 + Numbers(commands[..i]);
  }

  lemma OneMorePlace(commands: seq<Command>, i: nat, first: nat)
    requires i < |commands|
    ensures Numbers(commands[..i + 1]) == Numbers(commands[..i]) + if commands[i].kind.NumberedPipe? then 1 else 0
    ensures PlacesOf(commands[..i + 1], first) == PlacesOf(commands[..i], first) + [first + Numbers(commands[..i])]
  {
    assert commands[..i + 1][..i] == commands[..i];
  }

  lemma PrefixLinked(base: seq<Command>, commands: seq<Command>, i: nat)
    requires Linked(base + commands) && i < |commands|
    ensures Linked(base + commands[..i] + [commands[i]])
  {
    LinkedPrefix(base + commands, |base| + i + 1);
    assert (base + commands)[..|base| + i + 1] == base + commands[..i] + [commands[i]];
  }

  // What the first commands of a line have done: they were launched in order, they found what was
  // there for them, and nothing else happened between users.
  ghost predicate Done(h0: seq<Event>, launched0: seq<Table>, children0: seq<Child>, users: set<nat>, me: nat,
          commands: seq<Command>,
                       h: seq<Event>, launched: seq<Table>, children: seq<Child>, chs: seq<Child>) {
    && children == children0 + chs
    && CommandsIn(chs) == commands
    && h == h0 + Events(me, chs) && Answered(h0, users, me, chs)
    && launched == launched0 + Tables(chs)
  }

  lemma NothingDone(h: seq<Event>, launched: seq<Table>, children: seq<Child>, users: set<nat>, me: nat)
    ensures Done(h, launched, children, users, me, [], h, launched, children, [])
  {
    NothingAnswered(h, users, me);
  }

  lemma OneMoreDone(h0: seq<Event>, launched0: seq<Table>, children0: seq<Child>, users: set<nat>, me: nat,
          commands: seq<Command>,
                    h: seq<Event>, launched: seq<Table>, children: seq<Child>, chs: seq<Child>, ch: Child)
    requires Done(h0, launched0, children0, users, me, commands, h, launched, children, chs) && AnsweredOne(h, users, me, ch)
    ensures Done(h0, launched0, children0, users, me, commands + [ch.command], h + EventsOf(me, ch), launched + [ch.table], children + [ch], chs + [ch])
  {
    OneMoreAnswered(h0, users, me, chs, ch);
  }

  lemma CommandsJoin(a: seq<Child>, b: seq<Child>)
    ensures CommandsIn(a + b) == CommandsIn(a) + CommandsIn(b)
    decreases |b|
  {
    if b == [] {
      assert a + b == a;
    } else {
      assert (a + b)[..|a + b| - 1] == a + b[..|b|-1];
      CommandsJoin(a, b[..|b|-1]);
    }
  }

  lemma LinkedNext(h0: seq<Event>, launched0: seq<Table>, children0: seq<Child>, users: set<nat>, me: nat,
          commands: seq<Command>, i: nat,
                   h: seq<Event>, launched: seq<Table>, children: seq<Child>, chs: seq<Child>)
    requires i < |commands| && Linked(CommandsIn(children0) + commands)
    requires Done(h0, launched0, children0, users, me, commands[..i], h, launched, children, chs)
    ensures Linked(CommandsIn(children) + [commands[i]])
  {
    CommandsJoin(children0, chs);
    PrefixLinked(CommandsIn(children0), commands, i);
  }

  // The pending pipes of whoever was in a slot that is given out again.
  ghost function Displaced(courses: map<nat, Course>, id: nat): set<nat> {
    if id in courses then OpenPipes(courses[id].session) else {}
  }

  lemma AccountedLogin(courses: map<nat, Course>, h: seq<Event>, pairs: map<nat, FdPair>, id: nat, lost: set<nat>)
    requires AllAccounted(courses, h, pairs, lost)
    ensures AllAccounted(courses[id := NEWCOMER], h, pairs, lost + Displaced(courses, id))
  {
    hide OpenPipes, Waits;
    var more := courses[id := NEWCOMER];
    forall p | OwnedBySome(courses, p) ensures OwnedBySome(more, p) || p in Displaced(courses, id) {
      var u :| u in courses && p in OpenPipes(courses[u].session);
      assert u != id ==> p in OpenPipes(more[u].session);
    }
  }

  lemma LoggedIn(host: Host, courses: map<nat, Course>, clients: map<nat, Client>, id: nat,
                 pairs: map<nat, FdPair>, h: seq<Event>, made: nat, lost: set<nat>)
    requires NoPipes(host) && clients.Keys == courses.Keys && Sound(host, courses, clients, pairs, h, made, lost) && Rested(courses, clients)
    ensures var more, records := courses[id := NEWCOMER], clients[id := Client(map[], 0)];
      Sound(host, more, records, pairs, h, made, lost + Displaced(courses, id)) && Rested(more, records)
  {
    FreshLane(host, pairs, h, made);
    AccountedLogin(courses, h, pairs, id, lost);
    hide AllLanes, OwnersDiffer, AllFollowed, AllAccounted, Rested, Lane, Followed, OpenPipes, Displaced;
    FreshIsSound(host, courses, clients, id, pairs, h, made);
    FreshIsApart(courses, id);
  }

  lemma FreshIsSound(host: Host, courses: map<nat, Course>, clients: map<nat, Client>, id: nat, pairs: map<nat, FdPair>, h: seq<Event>, made: nat)
    requires clients.Keys == courses.Keys && AllLanes(courses, clients, pairs, h, made) && AllFollowed(host, courses) && Rested(courses, clients)
    requires Lane(START, map[], pairs, h, made) && Followed(host, [], [], START)
    ensures var more, records := courses[id := NEWCOMER], clients[id := Client(map[], 0)];
      AllLanes(more, records, pairs, h, made) && AllFollowed(host, more) && Rested(more, records)
  {
    hide Lane, Followed;
  }

  lemma FreshIsApart(courses: map<nat, Course>, id: nat)
    requires OwnersDiffer(courses) && OpenPipes(START) == {}
    ensures OwnersDiffer(courses[id := NEWCOMER])
  {
    hide OpenPipes;
  }

  // No pipe waits between this user and another.
  ghost predicate NoneWaits(h: seq<Event>, me: nat) {
    forall j :: j != me ==> Outstanding(h, me, j).None? && Outstanding(h, j, me).None?
  }

  // What a departing user leaves open: the own pending pipes and those that wait from or for the user.
  ghost function LeftOpen(courses: map<nat, Course>, h: seq<Event>, pairs: map<nat, FdPair>, me: nat): set<nat>
    requires me in courses
  {
    OpenPipes(courses[me].session) + set p | p in pairs && WaitsWith(h, me, p)
  }

  lemma AccountedLeave(courses: map<nat, Course>, h: seq<Event>, pairs: map<nat, FdPair>, me: nat, lost: set<nat>)
    requires me in courses && AllAccounted(courses, h, pairs, lost)
    ensures AllAccounted(courses - {me}, h + [Left(me)], pairs, lost + LeftOpen(courses, h, pairs, me))
  {
    hide OpenPipes, Waits, WaitsWith;
    forall p | p in pairs && p !in lost + LeftOpen(courses, h, pairs, me) ensures OwnedBySome(courses - {me}, p) || Waits(h + [Left(me)], p) {
      if OwnedBySome(courses, p) {
        var u :| u in courses && p in OpenPipes(courses[u].session);
        assert p in OpenPipes((courses - {me})[u].session);
      } else {
        LeavingWaits(h, me, p);
      }
    }
  }

  lemma LoggedOut(host: Host, courses: map<nat, Course>, clients: map<nat, Client>, me: nat,
                  pairs: map<nat, FdPair>, h: seq<Event>, made: nat, lost: set<nat>)
    requires clients.Keys == courses.Keys && me in courses && Sound(host, courses, clients, pairs, h, made, lost) && Rested(courses, clients)
    ensures var fewer, records := courses - {me}, clients - {me};
      Sound(host, fewer, records, pairs, h + [Left(me)], made, lost + LeftOpen(courses, h, pairs, me)) && Rested(fewer, records)
  {
    AccountedLeave(courses, h, pairs, me, lost);
    hide AllLanes, OwnersDiffer, AllFollowed, AllAccounted, Rested, LeftOpen;
    LanesLeft(courses, clients, me, pairs, h, made);
    OthersStaySound(host, courses, clients, me);
  }

  lemma OthersStaySound(host: Host, courses: map<nat, Course>, clients: map<nat, Client>, me: nat)
    requires OwnersDiffer(courses) && AllFollowed(host, courses) && Rested(courses, clients)
    ensures OwnersDiffer(courses - {me}) && AllFollowed(host, courses - {me}) && Rested(courses - {me}, clients - {me})
  {
    hide OpenPipes, Followed;
  }

  lemma LanesLeft(courses: map<nat, Course>, clients: map<nat, Client>, me: nat, pairs: map<nat, FdPair>, h: seq<Event>, made: nat)
    requires AllLanes(courses, clients, pairs, h, made)
    ensures AllLanes(courses - {me}, clients - {me}, pairs, h + [Left(me)], made)
  {
    LeftMoves(h, me, made);
    hide Lane, Moved;
    forall u | u in courses ensures Lane(courses[u].session, clients[u].numberedPipes, pairs, h + [Left(me)], made) {
      LaneKept(courses[u].session, clients[u].numberedPipes, pairs, h, made, h + [Left(me)]);
    }
  }

  // What holds of all users together, between commands.
  ghost predicate Sound(host: Host, courses: map<nat, Course>, clients: map<nat, Client>,
                        pairs: map<nat, FdPair>, h: seq<Event>, made: nat, lost: set<nat>) {
    && AllLanes(courses, clients, pairs, h, made)
    && OwnersDiffer(courses)
    && AllFollowed(host, courses)
    && AllAccounted(courses, h, pairs, lost)
  }

  // A command of one user keeps all users' books.
  lemma CommandSound(host: Host, courses: map<nat, Course>, clients: map<nat, Client>, me: nat, users: set<nat>,
                     before: map<nat, FdPair>, h: seq<Event>, made: nat, after: map<nat, FdPair>, next: nat,
                     gone: set<nat>, lost: set<nat>, ch: Child, course: Course, client: Client)
    requires NoPipes(host) && Sound(host, courses, clients, before, h, made, lost) && me in courses
    requires Fits(me, ch.command) && Coherent(ch.command) && Linked(CommandsIn(courses[me].children) + [ch.command])
    requires courses[me].session.pipes <= made <= ch.made && made <= next
    requires course == Course(Step(host, Numbered(courses[me].session, made), ch.command), courses[me].children + [ch],
                              courses[me].at + [courses[me].session.line])
    requires Lane(course.session, client.numberedPipes, after, h + EventsOf(me, ch), next)
    requires Moved(h, h + EventsOf(me, ch), ch.made) && SamePlaces(before, after) && before.Keys - gone <= after.Keys
    requires forall p :: p in gone ==> p in OpenPipes(courses[me].session) || !Unsent(h, p)
    requires ch.waiting.Some? ==> ch.waiting.value in gone
    requires after.Keys <= before.Keys - gone + OpenPipes(course.session) + (if ch.sends then {ch.made} else {})
    requires OpenPipes(courses[me].session) - gone <= OpenPipes(course.session)
    requires Plugged(host, ch, Launch(host, Numbered(courses[me].session, made), ch.command))
    requires AnsweredOne(h, users, me, ch)
    ensures Sound(host, courses[me := course], clients[me := client], after, h + EventsOf(me, ch), next, lost)
  {
    var later := h + EventsOf(me, ch);
    assert Sound(host, courses, clients, before, h, made, lost);
    hide AllLanes, OwnersDiffer, AllFollowed, AllAccounted, Fits, Coherent, Linked, Step, Lane, Moved, SamePlaces, Unsent, Plugged,
      Launch, AnsweredOne, OpenPipes, EventsOf, CommandsIn, Numbered;
    LanesStay(courses, clients, me, before, h, made, after, later, ch.made, next, gone, course, client);
    OwnersStayApart(host, courses, clients, me, ch.command, before, h, made, course);
    FollowedStep(host, courses, me, made, ch, course);
    AccountedStep(courses, me, course, h, users, ch, before, after, gone, lost);
  }

  // The session can be at this line.
  predicate Spans(s: Session, line: nat) {
    s.left.None? && forall L :: L in s.pending ==> line <= L <= line + INT_MAX
  }

  // After `>n` nothing is pending that the same line could not have pending.
  lemma LineStays(me: nat, host: Host, s: Session, c: Command, numbered: map<nat, OpenPipe>, pairs: map<nat, FdPair>, h: seq<Event>, made: nat)
    requires Lane(s, numbered, pairs, h, made) && Fits(me, c) && c.userOut
    ensures Spans(Step(host, s, c), s.line)
  {
    hide Outstanding, Unsent;
    forall L | L in Step(host, s, c).pending ensures L in s.pending { PendingKeys(host, s, c, L); }
  }

  // The course goes on at another line.
  lemma MoveSound(host: Host, courses: map<nat, Course>, clients: map<nat, Client>, me: nat,
                  pairs: map<nat, FdPair>, h: seq<Event>, made: nat, lost: set<nat>, line: nat)
    requires Sound(host, courses, clients, pairs, h, made, lost) && me in courses && Spans(courses[me].session, line)
    requires courses[me].at != [] ==> courses[me].at[|courses[me].at|-1] <= line
    ensures Sound(host, courses[me := courses[me].(session := courses[me].session.(line := line))], clients, pairs, h, made, lost)
  {
    var course := courses[me];
    var moved := course.(session := course.session.(line := line));
    OneSound(host, courses, clients, me, pairs, h, made, lost);
    hide Lane, Followed, AllLanes, OwnersDiffer, AllFollowed, AllAccounted;
    MovedLane(course.session, clients[me].numberedPipes, pairs, h, made, line);
    MovedFollowed(host, course.children, course.at, course.session, line);
    SamePipes(host, courses, clients, me, moved, pairs, h, made, lost);
  }

  lemma OneSound(host: Host, courses: map<nat, Course>, clients: map<nat, Client>, me: nat,
                 pairs: map<nat, FdPair>, h: seq<Event>, made: nat, lost: set<nat>)
    requires Sound(host, courses, clients, pairs, h, made, lost) && me in courses
    ensures me in clients && Lane(courses[me].session, clients[me].numberedPipes, pairs, h, made)
    ensures Followed(host, courses[me].children, courses[me].at, courses[me].session)
  {
    hide Lane, Followed, OwnersDiffer, AllAccounted;
  }

  // A course with the same pipes in place of another.
  lemma SamePipes(host: Host, courses: map<nat, Course>, clients: map<nat, Client>, me: nat, course: Course,
                  pairs: map<nat, FdPair>, h: seq<Event>, made: nat, lost: set<nat>)
    requires Sound(host, courses, clients, pairs, h, made, lost) && me in courses && me in clients
    requires Lane(course.session, clients[me].numberedPipes, pairs, h, made)
    requires Followed(host, course.children, course.at, course.session)
    requires OpenPipes(course.session) == OpenPipes(courses[me].session)
    ensures Sound(host, courses[me := course], clients, pairs, h, made, lost)
  {
    hide Lane, Followed, Waits, OpenPipes;
    var more := courses[me := course];
    forall p | OwnedBySome(courses, p) ensures OwnedBySome(more, p) {
      var u :| u in courses && p in OpenPipes(courses[u].session);
      assert p in OpenPipes(more[u].session);
    }
  }

  lemma FitsIsCoherent(me: nat, c: Command)
    requires Fits(me, c)
    ensures Coherent(c)
  {
  }

  class LineServer {
    const server: Server
    var clients: map<nat, Client>
    ghost var courses: map<nat, Course>
    // The pipes that departed users left open.
    ghost var lost: set<nat>

    ghost function TheHost(): Host
      requires Standard(server.init)
    {
      Host(server.init[0], server.init[1], server.init[2], {}, server.writable)
    }

    ghost predicate Live()
      reads this, server, server.process, server.record
    {
      && Standard(server.init) && server.Valid() && NoPipes(TheHost())
      && courses.Keys == server.clients.Keys && clients.Keys == courses.Keys
      && Sound(TheHost(), courses, clients, server.pairs, server.history, server.pipesMade, lost)
    }

    // Between lines.
    ghost predicate Valid()
      reads this, server, server.process, server.record
    {
      && Live()
      && Rested(courses, clients)
    }

    constructor (server: Server)
      requires server.Valid() && server.clients == map[] && server.pairs == map[]
      requires server.init[0].Inherited? && server.init[1].Inherited? && server.init[2].Inherited?
      ensures Valid() && this.server == server && courses == map[] && lost == {}
    {
      this.server := server;
      clients, courses, lost := map[], map[], {};
    }

    // The pipe for `|n`: the one already entered for the target line, or a new one.
    method TargetPipe(c: Command, lineCount: nat, numbered0: map<nat, OpenPipe>, ghost s: Session)
      returns (numbered: map<nat, OpenPipe>, target: Option<OpenPipe>)
      requires server.Valid() && s.pipes == server.pipesMade && Lane(s, numbered0, server.pairs, server.history, server.pipesMade)
      requires Coherent(c) && lineCount == Wrap(s.line)
      modifies server`pairs, server`pipesMade, server.process
      ensures server.Valid()
      ensures TargetReady(s, c, old(server.pairs), server.history, server.pairs, server.pipesMade, numbered, target)
    {
      hide Outstanding, Slots, Accounts, Separate, Server.Valid;
      numbered, target := numbered0, None;
      ghost var before := server.pairs;
      NotYetMade(s, numbered0);
      if c.kind.NumberedPipe? {
        var key := Wrap(lineCount + c.pipeNumber);
        if key !in numbered0 {
          var p := server.OrdinaryPipe();
          TargetSlots(s, c, Opens(before), numbered0, p);
          assert Opens(server.pairs) == Opens(before)[s.pipes := p];
          numbered := numbered0[key := p];
          target := Some(p);
        } else {
          target := Some(numbered0[key]);
          TargetSlots(s, c, Opens(before), numbered0, numbered0[key]);
        }
      }
    }

    lemma NotYetMade(s: Session, numbered: map<nat, OpenPipe>)
      requires server.Valid() && Lane(s, numbered, server.pairs, server.history, server.pipesMade)
      ensures server.pipesMade !in server.pairs && OpenPipes(s) <= Opens(server.pairs).Keys
      ensures forall p :: p in OpenPipes(s) ==> Unsent(server.history, p)
    {
    }

    lemma ReceivedIsSent(me: nat, from: nat)
      requires server.Valid() && Outstanding(server.history, from, me).Some?
      ensures !Unsent(server.history, Outstanding(server.history, from, me).value)
      ensures Outstanding(server.history, from, me).value != server.pipesMade
    {
    }

    // The pipes of a command are ready.
    ghost predicate Given(me: nat, c: Command, s: Session, left: Option<OpenPipe>, due: Option<OpenPipe>,
            target: Option<OpenPipe>)
      reads server`history, server`clients, server`pairs
    {
      && server.Acceptable(me, c, left, due, target)
      && Ids(left) == ToSet(s.left) && Ids(due) == ToSet(DuePipe(s))
      && InPipe(s, c) == (if left.Some? then Some(left.value.id) else if due.Some? then Some(due.value.id) else None)
      && target.Some? == c.kind.NumberedPipe? && (target.Some? ==> OutPipe(s, c) == Some(target.value.id))
    }

    method Prepare(me: nat, c: Command, left: Option<OpenPipe>, lineCount: nat, numbered0: map<nat, OpenPipe>, ghost s: Session)
      returns (numbered: map<nat, OpenPipe>, due: Option<OpenPipe>, target: Option<OpenPipe>)
      requires server.Valid() && me in server.clients
      requires s.pipes == server.pipesMade
      requires Lane(s, numbered0, server.pairs, server.history, server.pipesMade) && lineCount == Wrap(s.line)
      requires Fits(me, c) && c.pipeBefore == s.left.Some? && left == AsOpen(server.pairs, s.left)
      requires c.kind.Redirect? && c.userIn ==> Outstanding(server.history, c.inId, me).Some?
      modifies server`pipesMade, server`pairs, server.process
      ensures server.Valid()
      ensures TargetReady(s, c, old(server.pairs), server.history, server.pairs, server.pipesMade, numbered, target)
      ensures Given(me, c, s, left, due, target)
      ensures forall p :: p in ToSet(s.left) + ToSet(DuePipe(s)) ==> p in OpenPipes(s)
    {
      hide Outstanding, Slots, Accounts, Separate, Server.Valid, OpenPipes;
      ghost var before := server.pairs;
      numbered, target := TargetPipe(c, lineCount, numbered0, s);
      GivenPipes(s, c, before, server.history, server.pairs, server.pipesMade, numbered0, numbered, target);
      due := DueFor(c, numbered, lineCount);
    }

    // The checks, the child and the parent's closing, seen from the user's session. `received` is the
    // user pipe that was read.
    method Fork(me: nat, c: Command, left: Option<OpenPipe>, due: Option<OpenPipe>, target: Option<OpenPipe>, ghost s: Session)
      returns (next: Option<OpenPipe>, ghost ch: Child, ghost received: set<nat>)
      requires Standard(server.init) && NoPipes(TheHost()) && server.Valid() && Fits(me, c)
      requires Given(me, c, s, left, due, target) && (c.pipeAfter ==> server.pipesMade == s.pipes)
      modifies server`pipesIn, server`pipesOut, server`pipesMade, server`history, server`pairs
      modifies server`nulls, server`launched, server.record, server.process
      ensures server.Valid() && server.pipesMade >= old(server.pipesMade)
      ensures ch.made == old(server.pipesMade) && ch.command == c && ch.sends == old(server.Sends(me, c))
      ensures ch.waiting == if c.userIn then Outstanding(old(server.history), c.inId, me) else None
      ensures Plugged(TheHost(), ch, Launch(TheHost(), s, c))
      ensures server.launched == old(server.launched) + [ch.table]
      ensures PipesAfter(c, ch.made, ch.sends, ToSet(s.left) + ToSet(DuePipe(s)) + received, old(server.pairs), server.pairs)
      ensures forall p :: p in received ==> !Unsent(old(server.history), p) && p != ch.made
      ensures ch.waiting.Some? ==> ch.waiting.value in received
      ensures Moved(old(server.history), server.history, ch.made)
      ensures c.pipeAfter ==> Unsent(server.history, ch.made) && ch.made < server.pipesMade
      ensures next == AsOpen(server.pairs, if c.pipeAfter then Some(ch.made) else None)
      ensures server.history == old(server.history)
                                + (if ch.sends then [Piped(me, c.outId, ch.made)] else [])
                                + (if old(server.Receives(me, c)) then [Event.Received(c.inId, me)] else [])
    {
      hide Outstanding, Slots, Accounts, Separate, Server.Valid, Server.Ran, Launch, Unsent, SpareIn, Plugged, Known, Moved, SamePlaces;
      ghost var h, made := server.history, server.pipesMade;
      ghost var sends, receives := server.Sends(me, c), server.Receives(me, c);
      ghost var waiting := if c.userIn then Outstanding(h, c.inId, me) else None;
      received := if receives then {waiting.value} else {};
      if receives { ReceivedIsSent(me, c.inId); }
      ghost var leaked;
      next, leaked := server.ExecuteCommand(me, c, left, due, target);
      ch := Child(c, made, waiting, sends, server.launched[|old(server.launched)|]);
      RanIsPlugged(server, TheHost(), s, c, left, due, target, made, waiting, sends, ch.table);
      CommandMoves(h, if sends then [Piped(me, c.outId, made)] else [], if receives then [Event.Received(c.inId, me)] else [], made);
      NextIsOpen(next);
    }

    // One command on the server. `gone` are the pipes that the parent closes.
    method Serve(me: nat, c: Command, left: Option<OpenPipe>, lineCount: nat, numbered0: map<nat, OpenPipe>, ghost s: Session)
      returns (numbered: map<nat, OpenPipe>, next: Option<OpenPipe>, ghost ch: Child, ghost gone: set<nat>)
      requires Standard(server.init) && NoPipes(TheHost()) && server.Valid() && me in server.clients
      requires s.pipes == server.pipesMade
      requires Lane(s, numbered0, server.pairs, server.history, server.pipesMade) && lineCount == Wrap(s.line)
      requires Fits(me, c) && c.pipeBefore == s.left.Some? && left == AsOpen(server.pairs, s.left)
      requires c.kind.Redirect? && c.userIn ==> Outstanding(server.history, c.inId, me).Some?
      modifies server`pipesIn, server`pipesOut, server`pipesMade, server`history, server`pairs
      modifies server`nulls, server`launched, server.record, server.process
      ensures server.Valid()
      ensures Lane(Step(TheHost(), s, c), numbered, server.pairs, server.history, server.pipesMade)
      ensures s.pipes <= ch.made && s.pipes <= server.pipesMade && Moved(old(server.history), server.history, ch.made)
      ensures SamePlaces(old(server.pairs), server.pairs) && old(server.pairs).Keys - gone <= server.pairs.Keys
      ensures forall p :: p in gone ==> p in OpenPipes(s) || !Unsent(old(server.history), p)
      ensures ch.waiting.Some? ==> ch.waiting.value in gone
      ensures server.pairs.Keys <= old(server.pairs).Keys - gone + OpenPipes(Step(TheHost(), s, c)) + (if ch.sends then {ch.made} else {})
      ensures OpenPipes(s) - gone <= OpenPipes(Step(TheHost(), s, c))
      ensures Plugged(TheHost(), ch, Launch(TheHost(), s, c)) && ch.command == c
      ensures ch.waiting == (if c.userIn then Outstanding(old(server.history), c.inId, me) else None) && ch.sends == old(server.Sends(me, c))
      ensures server.launched == old(server.launched) + [ch.table]
      ensures next == AsOpen(server.pairs, Step(TheHost(), s, c).left)
      ensures server.history == old(server.history)
                                + (if ch.sends then [Piped(me, c.outId, ch.made)] else [])
                                + (if old(server.Receives(me, c)) then [Event.Received(c.inId, me)] else [])
    {
      hide Outstanding, Slots, Accounts, Separate, Server.Valid, Step, Launch, Lane, SamePlaces, Moved, Unsent, Plugged, OpenPipes, Given;
      var due, target;
      ghost var before, h, received := server.pairs, server.history, {};
      numbered, due, target := Prepare(me, c, left, lineCount, numbered0, s);
      ghost var middle := server.pairs;
      next, ch, received := Fork(me, c, left, due, target, s);
      gone := ToSet(s.left) + ToSet(DuePipe(s)) + received;
      PlacesKept(before, middle, server.pairs);
      StepLeft(TheHost(), s, c);
      OwnAccounted(TheHost(), s, c, before, h, middle, ch.made, numbered0, numbered, target, ch.sends, received, server.pairs);
      OwnAfter(TheHost(), s, c, before, h, middle, ch.made, numbered0, numbered, target, ch.sends, received, server.pairs, server.history, server.pipesMade);
      numbered := numbered - {lineCount};
    }

    lemma NextIsOpen(next: Option<OpenPipe>)
      requires server.Valid() && server.Spare(next)
      ensures next.Some? ==> next.value.id < server.pipesMade && Unsent(server.history, next.value.id) && next == AsOpen(server.pairs, Some(next.value.id))
    {
    }

    // One command of one user, at the line that the user has come to.
    method RunOne(me: nat, c: Command, last: bool, left: Option<OpenPipe>) returns (next: Option<OpenPipe>, ghost ch: Child)
      requires Live() && me in courses && clients[me].lineCount == Wrap(courses[me].session.line)
      requires Fits(me, c) && c.pipeBefore == courses[me].session.left.Some?
      requires left == AsOpen(server.pairs, courses[me].session.left)
      requires Linked(CommandsIn(courses[me].children) + [c])
      requires c.kind.Redirect? && c.userIn ==> Outstanding(server.history, c.inId, me).Some?
      modifies this`clients, this`courses
      modifies server`pipesIn, server`pipesOut, server`pipesMade, server`history, server`pairs
      modifies server`nulls, server`launched, server.record, server.process
      ensures Live()
      ensures var before := old(courses)[me];
        courses == old(courses)[me := Course(Step(TheHost(), Numbered(before.session, old(server.pipesMade)), c),
                                             before.children + [ch], before.at + [before.session.line])]
      ensures c.userOut ==> Spans(courses[me].session, old(courses)[me].session.line)
      ensures ch.command == c && AnsweredOne(old(server.history), server.clients.Keys, me, ch)
      ensures server.launched == old(server.launched) + [ch.table]
      ensures next == AsOpen(server.pairs, courses[me].session.left)
      ensures server.history == old(server.history) + EventsOf(me, ch)
      ensures clients == old(clients)[me := clients[me]]
      ensures clients[me].lineCount == if c.kind.NumberedPipe? && !last then Wrap(old(clients)[me].lineCount + 1) else old(clients)[me].lineCount
    {
      hide *;
      Parts();
      FitsIsCoherent(me, c);
      ghost var course, made, before, h := courses[me], server.pipesMade, server.pairs, server.history;
      ghost var s := Numbered(course.session, made);
      OwnLane(me, s);
      if c.userOut { LineStays(me, TheHost(), s, c, clients[me].numberedPipes, before, h, made); }
      ghost var gone;
      var numbered;
      ghost var sends, receives := server.Sends(me, c), server.Receives(me, c);
      AskMeans(me, c);
      numbered, next, ch, gone := Serve(me, c, left, clients[me].lineCount, clients[me].numberedPipes, s);
      AnsweredIs(h, me, ch, sends, receives);
      ghost var course1 := Course(Step(TheHost(), s, c), course.children + [ch], course.at + [course.session.line]);
      var client := Client(numbered, clients[me].lineCount);
      if c.kind.NumberedPipe? && !last {
        client := client.(lineCount := Wrap(client.lineCount + 1));
      }
      CommandSound(TheHost(), courses, clients, me, server.clients.Keys, before, h, made, server.pairs, server.pipesMade, gone, lost, ch, course1, client);
      clients := clients[me := client];
      courses := courses[me := course1];
      Whole();
    }

    // One command of one user, through to the new session.
    method RunCommand(me: nat, c: Command, last: bool, left: Option<OpenPipe>) returns (next: Option<OpenPipe>, ghost ch: Child)
      requires Live() && me in courses && clients[me].lineCount == Wrap(courses[me].session.line)
      requires Fits(me, c) && c.pipeBefore == courses[me].session.left.Some?
      requires left == AsOpen(server.pairs, courses[me].session.left)
      requires Linked(CommandsIn(courses[me].children) + [c])
      requires c.kind.Redirect? && c.userIn ==> Outstanding(server.history, c.inId, me).Some?
      modifies this`clients, this`courses
      modifies server`pipesIn, server`pipesOut, server`pipesMade, server`history, server`pairs
      modifies server`nulls, server`launched, server.record, server.process
      ensures Live()
      ensures var before := old(courses)[me];
        courses == old(courses)[me := Course(Onward(TheHost(), Numbered(before.session, old(server.pipesMade)), c, last),
                                             before.children + [ch], before.at + [before.session.line])]
      ensures ch.command == c && AnsweredOne(old(server.history), server.clients.Keys, me, ch)
      ensures server.launched == old(server.launched) + [ch.table]
      ensures next == AsOpen(server.pairs, courses[me].session.left)
      ensures server.history == old(server.history) + EventsOf(me, ch)
      ensures clients == old(clients)[me := clients[me]]
      ensures clients[me].lineCount == if c.kind.NumberedPipe? && !last then Wrap(old(clients)[me].lineCount + 1) else old(clients)[me].lineCount
    {
      hide *;
      ghost var course, made := courses[me], server.pipesMade;
      ghost var s := Numbered(course.session, made);
      NumberedIs(course.session, made);
      Parts();
      next, ch := RunOne(me, c, last, left);
      Parts();
      OnwardIs(TheHost(), s, c, last);
      if c.userOut && !last {
        GoOn(me, course.session.line);
      }
    }

    // After `>n` the line goes on.
    ghost method GoOn(me: nat, line: nat)
      requires Live() && me in courses && Spans(courses[me].session, line)
      requires courses[me].at != [] ==> courses[me].at[|courses[me].at|-1] <= line
      modifies this`courses
      ensures Live() && courses == old(courses)[me := old(courses)[me].(session := old(courses)[me].session.(line := line))]
    {
      hide *;
      Parts();
      MoveSound(TheHost(), courses, clients, me, server.pairs, server.history, server.pipesMade, lost, line);
      courses := courses[me := courses[me].(session := courses[me].session.(line := line))];
      Whole();
    }

    lemma AskMeans(me: nat, c: Command)
      ensures server.Sends(me, c) == (c.userOut && c.outId >= 0 && c.outId as nat in server.clients && Outstanding(server.history, me, c.outId).None?)
      ensures server.Receives(me, c) == (c.userIn && c.inId >= 0 && Outstanding(server.history, c.inId, me).Some?)
    {
    }

    lemma AnsweredIs(h: seq<Event>, me: nat, ch: Child, sends: bool, receives: bool)
      requires Fits(me, ch.command) && ch.sends == sends
      requires ch.waiting == if ch.command.userIn then Outstanding(h, ch.command.inId, me) else None
      requires sends == (ch.command.userOut && ch.command.outId >= 0 && ch.command.outId as nat in server.clients && Outstanding(h, me, ch.command.outId).None?)
      requires receives == (ch.command.userIn && ch.command.inId >= 0 && Outstanding(h, ch.command.inId, me).Some?)
      ensures AnsweredOne(h, server.clients.Keys, me, ch)
      ensures h + (if sends then [Piped(me, ch.command.outId, ch.made)] else [])
              + (if receives then [Event.Received(ch.command.inId, me)] else []) == h + EventsOf(me, ch)
    {
    }

    lemma Parts()
      requires Live()
      ensures Standard(server.init) && server.Valid() && NoPipes(TheHost())
      ensures courses.Keys == server.clients.Keys && clients.Keys == courses.Keys
      ensures Sound(TheHost(), courses, clients, server.pairs, server.history, server.pipesMade, lost)
    {
    }

    lemma Whole()
      requires Standard(server.init) && server.Valid() && NoPipes(TheHost())
      requires courses.Keys == server.clients.Keys && clients.Keys == courses.Keys
      requires Sound(TheHost(), courses, clients, server.pairs, server.history, server.pipesMade, lost)
      ensures Live()
    {
    }

    lemma OwnLane(me: nat, s: Session)
      requires Live() && me in courses
      requires s == Numbered(courses[me].session, server.pipesMade)
      ensures me in clients && Lane(s, clients[me].numberedPipes, server.pairs, server.history, server.pipesMade)
      ensures OpenPipes(s) == OpenPipes(courses[me].session) && courses[me].session.pipes <= server.pipesMade
      ensures s.pipes == server.pipesMade && s.line == courses[me].session.line && s.left == courses[me].session.left
    {
      hide Lane;
      LaneNumbered(courses[me].session, clients[me].numberedPipes, server.pairs, server.history, server.pipesMade);
    }

    // A new user starts with an empty record, at line 0.
    method Login() returns (id: nat)
      requires Valid()
      modifies this`clients, this`courses, this`lost, server`clients
      ensures Valid()
      ensures NewSlot(id, old(courses).Keys)
      ensures courses == old(courses)[id := NEWCOMER] && clients == old(clients)[id := Client(map[], 0)]
      ensures lost == old(lost) + Displaced(old(courses), id)
      ensures server.clients == old(server.clients)[id := NO_NAME]
    {
      hide *;
      IsRested();
      Parts();
      id := server.Login();
      LoggedIn(TheHost(), courses, clients, id, server.pairs, server.history, server.pipesMade, lost);
      lost := lost + Displaced(courses, id);
      clients := clients[id := Client(map[], 0)];
      courses := courses[id := NEWCOMER];
      Whole();
      IsValid();
    }

    // name: the pipes are not concerned.
    method Rename(me: nat, name: string) returns (ok: bool)
      requires Valid() && me in courses && me != 0
      modifies server`clients
      ensures Valid() && server.clients == if ok then old(server.clients)[me := name] else old(server.clients)
      ensures ok <==> forall i :: 1 <= i <= MAX_USER && i in old(server.clients) ==> old(server.clients)[i] != name
    {
      hide *;
      IsRested();
      Parts();
      ok := server.Rename(me, name);
      Whole();
      IsValid();
    }

    // exit: the record goes; the user's pending and waiting pipes are forgotten but stay open.
    method Exit(me: nat)
      requires Valid() && me in courses
      modifies this`clients, this`courses, this`lost, server`clients, server`history, server.record
      ensures Valid()
      ensures courses == old(courses) - {me} && clients == old(clients) - {me} && server.clients == old(server.clients) - {me}
      ensures lost == old(lost) + LeftOpen(old(courses), old(server.history), server.pairs, me)
    {
      hide *;
      IsRested();
      Parts();
      ghost var h := server.history;
      server.Exit(me);
      LoggedOut(TheHost(), courses, clients, me, server.pairs, h, server.pipesMade, lost);
      lost := lost + LeftOpen(courses, h, server.pairs, me);
      clients := clients - {me};
      courses := courses - {me};
      Whole();
      IsValid();
    }

    // Whether no pipe waits between this user and another, asked of the pipe records.
    method CanHangUp(me: nat) returns (ok: bool)
      requires Valid() && me in courses
      ensures ok <==> NoneWaits(server.history, me)
    {
      hide *;
      IsRested();
      Parts();
      RecordedOnly(me);
      for j := 0 to MAX_USER + 1
        invariant forall k: nat :: k < j && k != me ==> !server.record[me, k] && !server.record[k, me]
      {
        if j != me && (server.record[me, j] || server.record[j, me]) {
          return false;
        }
      }
      return true;
    }

    lemma RecordedOnly(me: nat)
      requires server.Valid() && me in server.clients
      ensures me <= MAX_USER && server.record.Length0 == server.record.Length1 == MAX_USER + 1
      ensures NoneWaits(server.history, me) <==>
              forall j: nat :: j <= MAX_USER && j != me ==> !server.record[me, j] && !server.record[j, me]
    {
    }

    // End of file on the user's socket: like exit, but the pipe records are not cleared.
    method HangUp(me: nat)
      requires Valid() && me in courses
      modifies this`clients, this`courses, this`lost, server`clients, server`history, server.record
      ensures Valid() <==> NoneWaits(old(server.history), me)
      ensures courses == old(courses) - {me} && clients == old(clients) - {me} && server.clients == old(server.clients) - {me}
      ensures server.history == old(server.history) + [Left(me)]
      ensures lost == old(lost) + LeftOpen(old(courses), old(server.history), server.pairs, me)
    {
      hide *;
      IsRested();
      Parts();
      RecordedOnly(me);
      ghost var h := server.history;
      server.Disconnect(me);
      LoggedOut(TheHost(), courses, clients, me, server.pairs, h, server.pipesMade, lost);
      lost := lost + LeftOpen(courses, h, server.pairs, me);
      clients := clients - {me};
      courses := courses - {me};
      if server.Valid() {
        Whole();
        IsValid();
      } else {
        NotValid();
      }
    }

    lemma NotValid()
      requires !server.Valid()
      ensures !Valid()
    {
    }

    lemma IsRested()
      requires Valid()
      ensures Live() && Rested(courses, clients)
    {
    }

    lemma IsValid()
      requires Live() && Rested(courses, clients)
      ensures Valid()
    {
    }

    lemma HostStands()
      requires Valid()
      ensures Standard(server.init) && NoPipes(TheHost())
    {
    }

    // Between lines each user's processes are wired as the commands launched for that user say, and what
    // they find at exec is that wiring with the user pipes plugged in. `ServerLoop.Serve` says which
    // commands these are.
    lemma EachUserIsWired(u: nat)
      requires Valid() && u in courses
      ensures var course := courses[u];
        && |course.children| == |course.session.procs|
        && Wired(TheHost(), CommandsIn(course.children), course.at, course.session.procs)
        && (forall k :: 0 <= k < |course.children| ==> Plugged(TheHost(), course.children[k], course.session.procs[k]))
    {
      hide Server.Valid, Lane, Tracks, Plugged;
      FollowedIsWired(TheHost(), courses[u].children, courses[u].at, courses[u].session);
    }

    // Main result: the open pipes are the pending pipes of the logged-in users and the pipes that wait
    // between two of them, and otherwise only what departed users left behind. Lines never add to that.
    lemma EveryPipeHasItsOwner(p: nat)
      requires Valid() && p !in lost
      ensures p in server.pairs <==> OwnedBySome(courses, p) || Waits(server.history, p)
    {
      if OwnedBySome(courses, p) {
        var u :| u in courses && p in OpenPipes(courses[u].session);
        assert Lane(courses[u].session, clients[u].numberedPipes, server.pairs, server.history, server.pipesMade);
      }
    }

    // Whether a line is run as it is meant and leaves no due pipe behind, asked of the pipe records.
    method CanRun(me: nat, commands: seq<Command>) returns (ok: bool)
      requires Valid() && me in courses
      ensures ok <==> Runnable(server.history, me, commands) && PassesNothing(courses[me].session, commands)
    {
      hide Accounts, Lane, Followed, AllLanes, AllFollowed, AllAccounted, OwnersDiffer;
      var fits := UserChain(commands) && forall k :: 0 <= k < |commands| ==> Fits(me, commands[k]);
      if !fits {
        return false;
      }
      if commands == [] {
        DueIsEntered(me);
        return clients[me].lineCount !in clients[me].numberedPipes;
      }
      var last := commands[|commands|-1];
      if last.kind.Redirect? && last.userIn {
        WaitingIsRecorded(last.inId, me);
        return WaitsAt(last.inId <= MAX_USER && server.record[last.inId, me], last.inId, me, commands, |commands| - 1);
      }
      return true;
    }

    lemma DueIsEntered(me: nat)
      requires Valid() && me in courses
      ensures me in clients && (clients[me].lineCount in clients[me].numberedPipes <==> courses[me].session.line in courses[me].session.pending)
    {
      hide Server.Valid, Followed, Separate, Outstanding;
      var s := courses[me].session;
      assert Lane(s, clients[me].numberedPipes, server.pairs, server.history, server.pipesMade);
      SlotLookup(s.line, s.pending, Opens(server.pairs), clients[me].numberedPipes, s.line);
    }

    lemma WaitingIsRecorded(from: nat, me: nat)
      requires server.Valid() && me in server.clients
      ensures me <= MAX_USER && server.record.Length0 == server.record.Length1 == MAX_USER + 1
      ensures Outstanding(server.history, from, me).Some? <==> from <= MAX_USER && server.record[from, me]
    {
    }

    // The loop over the commands of one line of one user.
    method RunAll(me: nat, commands: seq<Command>) returns (ghost chs: seq<Child>)
      requires Valid() && me in courses && Runnable(server.history, me, commands)
      modifies this`clients, this`courses
      modifies server`pipesIn, server`pipesOut, server`pipesMade, server`history, server`pairs
      modifies server`nulls, server`launched, server.record, server.process
      ensures Live() && me in courses && me in clients
      ensures courses == old(courses)[me := courses[me]] && clients == old(clients)[me := clients[me]]
      ensures commands == [] ==> courses == old(courses) && clients == old(clients)
      ensures Stands(courses[me].session, clients[me], commands, |commands|, old(courses)[me].session.line)
      ensures courses[me].at == old(courses)[me].at + PlacesOf(commands, old(courses)[me].session.line)
      ensures Done(old(server.history), old(server.launched), old(courses)[me].children, server.clients.Keys, me, commands,
                   server.history, server.launched, courses[me].children, chs)
    {
      hide *;
      var n := |commands|;
      var left: Option<OpenPipe> := None;
      chs := [];
      ghost var h0, l0, course0, users := server.history, server.launched, courses[me], server.clients.Keys;
      ghost var first := course0.session.line;
      Begin(me, commands);
      NothingDone(h0, l0, course0.children, users, me);
      for i := 0 to n
        invariant Live() && me in courses && clients.Keys == courses.Keys && Stands(courses[me].session, clients[me], commands, i, first)
        invariant left == AsOpen(server.pairs, courses[me].session.left) && WaitsSoFar(h0, server.history, me, commands, i)
        invariant courses == old(courses)[me := courses[me]] && clients == old(clients)[me := clients[me]]
        invariant i == 0 ==> courses == old(courses) && clients == old(clients)
        invariant courses[me].at == course0.at + PlacesOf(commands[..i], first)
        invariant Done(h0, l0, course0.children, users, me, commands[..i], server.history, server.launched, courses[me].children, chs)
      {
        ghost var h, l, course, client, made := server.history, server.launched, courses[me], clients[me], server.pipesMade;
        ghost var ch;
        CommandFits(h0, h, me, commands, i, course.session, client, first);
        LinkedNext(h0, l0, course0.children, users, me, commands, i, h, l, course.children, chs);
        left, ch := RunCommand(me, commands[i], i == n - 1, left);
        OneMoreRun(me, h0, l0, course0, users, commands, i, first, h, l, course, client, made, chs, ch);
        assert commands[..i + 1] == commands[..i] + [commands[i]];
        chs := chs + [ch];
      }
      assert commands[..n] == commands;
    }

    lemma OneMoreRun(me: nat, h0: seq<Event>, l0: seq<Table>, course0: Course, users: set<nat>, commands: seq<Command>, i: nat, first: nat,
                     h: seq<Event>, l: seq<Table>, course: Course, client: Client, made: nat, chs: seq<Child>, ch: Child)
      requires Live() && me in courses && clients.Keys == courses.Keys && users == server.clients.Keys
      requires i < |commands| && UserChain(commands) && Fits(me, commands[i]) && ch.command == commands[i]
      requires Stands(course.session, client, commands, i, first) && WaitsSoFar(h0, h, me, commands, i)
      requires course.at == course0.at + PlacesOf(commands[..i], first)
      requires courses[me] == Course(Onward(TheHost(), Numbered(course.session, made), commands[i], i == |commands| - 1),
                                     course.children + [ch], course.at + [course.session.line])
      requires clients[me].lineCount ==
        if commands[i].kind.NumberedPipe? && i < |commands| - 1 then Wrap(client.lineCount + 1) else client.lineCount
      requires AnsweredOne(h, users, me, ch) && server.history == h + EventsOf(me, ch) && server.launched == l + [ch.table]
      requires Done(h0, l0, course0.children, users, me, commands[..i], h, l, course.children, chs)
      ensures Stands(courses[me].session, clients[me], commands, i + 1, first) && WaitsSoFar(h0, server.history, me, commands, i + 1)
      ensures courses[me].at == course0.at + PlacesOf(commands[..i + 1], first)
      ensures Done(h0, l0, course0.children, users, me, commands[..i + 1], server.history, server.launched, courses[me].children, chs + [ch])
    {
      hide *;
      Parts();
      FitsSends(me, commands[i]);
      StandsNext(TheHost(), course.session, made, client, commands, i, first, courses[me].session, clients[me]);
      OneMorePlace(commands, i, first);
      InUsers(me);
      WaitsOneMore(h0, h, users, me, commands, i, ch);
      OneMoreDone(h0, l0, course0.children, users, me, commands[..i], h, l, course.children, chs, ch);
      assert commands[..i + 1] == commands[..i] + [commands[i]];
    }

    // One line of one user. An empty list only moves the counter on, past a pipe that may be due.
    method ExecuteCommands(me: nat, commands: seq<Command>) returns (ghost chs: seq<Child>)
      requires Valid() && me in courses && Runnable(server.history, me, commands)
      modifies this`clients, this`courses
      modifies server`pipesIn, server`pipesOut, server`pipesMade, server`history, server`pairs
      modifies server`nulls, server`launched, server.record, server.process
      ensures Valid() <==> PassesNothing(old(courses)[me].session, commands)
      ensures me in courses && me in clients
      ensures courses == old(courses)[me := courses[me]] && clients == old(clients)[me := clients[me]]
      ensures Done(old(server.history), old(server.launched), old(courses)[me].children, server.clients.Keys, me, commands,
                   server.history, server.launched, courses[me].children, chs)
      ensures courses[me].at == old(courses)[me].at + PlacesOf(commands, old(courses)[me].session.line)
      ensures courses[me].session.line == LineAfter(commands, old(courses)[me].session.line)
    {
      hide *;
      IsRested();
      ghost var first := courses[me].session.line;
      chs := RunAll(me, commands);
      ghost var before := clients;
      Parts();
      clients := clients[me := clients[me].(lineCount := Wrap(clients[me].lineCount + 1))];
      if commands == [] {
        courses := courses[me := courses[me].(session := courses[me].session.(line := first + 1))];
        Skipped(me, before, old(courses), commands);
      } else {
        Finished(me, before, old(courses), old(clients), commands, first);
      }
    }

    lemma InUsers(me: nat)
      requires Live() && me in courses
      ensures me in server.clients
    {
    }

    // An empty line is over; the books are straight if and only if no pipe was due.
    lemma Skipped(me: nat, before: map<nat, Client>, courses0: map<nat, Course>, commands: seq<Command>)
      requires Standard(server.init) && server.Valid() && NoPipes(TheHost())
      requires courses0.Keys == server.clients.Keys && before.Keys == courses0.Keys && me in courses0
      requires Sound(TheHost(), courses0, before, server.pairs, server.history, server.pipesMade, lost)
      requires Rested(courses0, before) && commands == []
      requires var course := courses0[me];
        courses == courses0[me := course.(session := course.session.(line := course.session.line + 1))]
      requires clients == before[me := before[me].(lineCount := Wrap(before[me].lineCount + 1))]
      ensures Valid() <==> PassesNothing(courses0[me].session, commands)
      ensures courses[me].at == courses0[me].at + PlacesOf(commands, courses0[me].session.line)
      ensures courses[me].session.line == LineAfter(commands, courses0[me].session.line)
    {
      hide *;
      var course := courses0[me];
      OneSound(TheHost(), courses0, before, me, server.pairs, server.history, server.pipesMade, lost);
      OneRests(courses0, before, me);
      BlankLine(course, commands);
      FollowedPassesNothing(TheHost(), course.children, course.at, course.session);
      if course.session.line !in course.session.pending {
        PendingWindow(course.session, before[me].numberedPipes, server.pairs, server.history, server.pipesMade);
        MoveSound(TheHost(), courses0, before, me, server.pairs, server.history, server.pipesMade, lost, course.session.line + 1);
        SameLanes(me, before);
        OneMoreRests(courses0, before, me, courses[me], clients[me]);
        Whole();
        IsValid();
      }
      if Valid() { KeepsDue(me); }
    }

    // No due pipe has been passed.
    lemma KeepsDue(me: nat)
      requires Valid() && me in courses
      ensures forall L :: L in courses[me].session.pending ==> courses[me].session.line <= L
    {
      Parts();
      OneSound(TheHost(), courses, clients, me, server.pairs, server.history, server.pipesMade, lost);
      hide Sound, Lane, Server.Valid, Live;
      FollowedPassesNothing(TheHost(), courses[me].children, courses[me].at, courses[me].session);
    }

    // Counting the line on ends it.
    lemma Finished(me: nat, before: map<nat, Client>, courses0: map<nat, Course>, clients0: map<nat, Client>,
            commands: seq<Command>, first: nat)
      requires Standard(server.init) && server.Valid() && NoPipes(TheHost())
      requires courses.Keys == server.clients.Keys && before.Keys == courses.Keys && me in courses
      requires Sound(TheHost(), courses, before, server.pairs, server.history, server.pipesMade, lost)
      requires commands != [] && Stands(courses[me].session, before[me], commands, |commands|, first)
      requires Rested(courses0, clients0) && me in courses0
      requires clients0.Keys == courses0.Keys && courses == courses0[me := courses[me]] && before == clients0[me := before[me]]
      requires clients == before[me := before[me].(lineCount := Wrap(before[me].lineCount + 1))]
      ensures Valid() && PassesNothing(courses0[me].session, commands)
      ensures courses[me].session.line == LineAfter(commands, first)
    {
      hide Lane, Server.Valid, Followed, OpenPipes;
      SameLanes(me, before);
      Whole();
    }

    // The counters are no part of what is sound.
    lemma SameLanes(me: nat, before: map<nat, Client>)
      requires Standard(server.init) && me in before
      requires Sound(TheHost(), courses, before, server.pairs, server.history, server.pipesMade, lost)
      requires clients == before[me := before[me].(lineCount := Wrap(before[me].lineCount + 1))]
      ensures Sound(TheHost(), courses, clients, server.pairs, server.history, server.pipesMade, lost)
    {
      hide Lane, OwnersDiffer, AllFollowed, AllAccounted;
    }

    lemma Begin(me: nat, commands: seq<Command>)
      requires Valid() && me in courses && Runnable(server.history, me, commands)
      ensures Live() && clients.Keys == courses.Keys
      ensures Stands(courses[me].session, clients[me], commands, 0, courses[me].session.line)
      ensures courses[me].session.left == None && AsOpen(server.pairs, courses[me].session.left) == None
      ensures WaitsSoFar(server.history, server.history, me, commands, 0)
      ensures Linked(CommandsIn(courses[me].children) + commands) && Rested(courses, clients)
      ensures courses[me].at == courses[me].at + PlacesOf(commands[..0], courses[me].session.line)
    {
      hide *;
      IsRested();
      Parts();
      OneSound(TheHost(), courses, clients, me, server.pairs, server.history, server.pipesMade, lost);
      OneRests(courses, clients, me);
      FollowedPassesNothing(TheHost(), courses[me].children, courses[me].at, courses[me].session);
      FirstOfLine(server.history, me, CommandsIn(courses[me].children), commands, courses[me].session, clients[me]);
      NothingRun(server.pairs, commands, courses[me].session.line);
    }
  }

  lemma OneRests(courses: map<nat, Course>, clients: map<nat, Client>, me: nat)
    requires Rested(courses, clients) && me in courses && me in clients
    ensures clients[me].lineCount == Wrap(courses[me].session.line) && courses[me].session.left == None
  {
  }

  lemma FirstOfLine(h: seq<Event>, me: nat, base: seq<Command>, commands: seq<Command>, s: Session, client: Client)
    requires Linked(base) && !MidLine(base) && Runnable(h, me, commands)
    requires s.left == None && client.lineCount == Wrap(s.line)
    ensures Linked(base + commands) && Stands(s, client, commands, 0, s.line) && WaitsSoFar(h, h, me, commands, 0)
  {
    LinkedConcat(base, commands);
    assert commands != [] ==> commands[0].pipeBefore == FollowsPipe(commands, 0);
  }

  lemma OneMoreRests(courses: map<nat, Course>, clients: map<nat, Client>, me: nat, course: Course, client: Client)
    requires Rested(courses, clients) && client.lineCount == Wrap(course.session.line) && course.session.left == None
    ensures Rested(courses[me := course], clients[me := client])
  {
  }

  lemma BlankLine(course: Course, commands: seq<Command>)
    requires commands == []
    ensures course.at == course.at + PlacesOf(commands, course.session.line)
    ensures course.session.line + 1 == LineAfter(commands, course.session.line)
    ensures PassesNothing(course.session, commands) <==> course.session.line !in course.session.pending
    ensures Wrap(Wrap(course.session.line) + 1) == Wrap(course.session.line + 1)
  {
    WrapAdds(course.session.line, 1);
  }

  lemma NothingRun(pairs: map<nat, FdPair>, commands: seq<Command>, first: nat)
    ensures PlacesOf(commands[..0], first) == [] && AsOpen(pairs, None) == None
  {
  }

  // The line brings a command, or no pipe is due.
  predicate PassesNothing(s: Session, commands: seq<Command>) {
    commands != [] || s.line !in s.pending
  }

  lemma FitsSends(me: nat, c: Command)
    requires Fits(me, c)
    ensures c.userOut ==> c.kind.Pipe? && !c.pipeAfter
  {
  }

  lemma PendingWindow(s: Session, numbered: map<nat, OpenPipe>, pairs: map<nat, FdPair>, h: seq<Event>, made: nat)
    requires Lane(s, numbered, pairs, h, made) && s.line !in s.pending && s.left.None?
    ensures Spans(s, s.line + 1)
  {
    hide Outstanding, Unsent, Separate;
  }

  lemma LineMoves(h: Host, s: Session, c: Command, last: bool)
    requires Coherent(c) && (if last then !c.pipeAfter else Writes(c) || c.userOut)
    requires c.userOut ==> c.kind.Pipe? && !c.pipeAfter
    ensures Onward(h, s, c, last).line == if c.kind.NumberedPipe? || last then s.line + 1 else s.line
    ensures Wrap(Wrap(s.line) + 1) == Wrap(s.line + 1)
  {
    WrapAdds(s.line, 1);
  }
}
