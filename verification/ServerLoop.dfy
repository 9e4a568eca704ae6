/** The main loop of the single-process server, from start-up: arrivals, input lines and hang-ups of any
    users in any order. */
module ServerLoop {
  import opened Commands
  import opened Descriptors
  import opened Engine
  import opened Outcomes
  import opened Tokens
  import opened UserLanes
  import opened UserLines
  import opened UserPipeHistory
  import ServerParser
  import ServerPrinting
  import SharedTable
  import UserPipes

  // What the loop finds to do: a new connection, or a line or the end of file on a user's socket.
  datatype Turn = Arrival | Input(user: nat, line: string) | HangUp(user: nat)

  // ----- What the users typed -------------------------------------------------------------------------------

  // Lines that the server handles itself.
  predicate IsBuiltIn(tokens: seq<string>) {
    tokens == [] || tokens[0] in ["exit", "printenv", "setenv", "who", "yell", "tell", "name"]
  }

  predicate IsExit(tokens: seq<string>) {
    tokens != [] && tokens[0] == "exit"
  }

  function Parsed(line: string): Result<seq<Command>> {
    ServerParser.ParseFrom(Fields(line, ' '), ServerParser.FRESH)
  }

  // The commands that a line asks for.
  function CommandsOf(line: string): seq<Command> {
    if IsBuiltIn(Fields(line, ' ')) || Parsed(line).Err? then [] else Parsed(line).value
  }

  // The least free slot, or slot 0.
  function NewSlot(taken: set<nat>): nat {
    var id := SharedTable.LeastFree(taken, 1);
    if id <= 30 then id else 0
  }

  // A user's own lines since logging in: their commands, the lines at which these run, and the line at
  // which the next input line begins.
  datatype Log = Log(commands: seq<Command>, at: seq<nat>, line: nat)

  const BLANK := Log([], [], 0)

  function Entered(log: Log, line: string): Log {
    if IsBuiltIn(Fields(line, ' ')) then log
    else
      var cs := CommandsOf(line);
      Log(log.commands + cs, log.at + PlacesOf(cs, log.line), LineAfter(cs, log.line))
  }

  // Who is logged in, with what that user has typed. Slot 0 is never served.
  function Logs(board: map<nat, Log>, turn: Turn): map<nat, Log> {
    match turn
    case Arrival => board[NewSlot(board.Keys) := BLANK]
    case Input(u, line) =>
      if u == 0 || u !in board then board
      else if IsExit(Fields(line, ' ')) then board - {u}
      else board[u := Entered(board[u], line)]
    case HangUp(u) =>
      if u == 0 then board else board - {u}
  }

  // ----- What the users are called ----------------------------------------------------------------------------

  // A two-word `name x` gives the user that name, unless someone in slots 1 to 30 has it.
  predicate Renames(names: map<nat, string>, tokens: seq<string>) {
    |tokens| == 2 && tokens[0] == "name" && forall i :: 1 <= i <= 30 && i in names ==> names[i] != tokens[1]
  }

  function Named(names: map<nat, string>, turn: Turn): map<nat, string> {
    match turn
    case Arrival => names[NewSlot(names.Keys) := "(no name)"]
    case Input(u, line) =>
      if u == 0 || u !in names then names
      else if IsExit(Fields(line, ' ')) then names - {u}
      else if Renames(names, Fields(line, ' ')) then names[u := Fields(line, ' ')[1]]
      else names
    case HangUp(u) =>
      if u == 0 then names else names - {u}
  }

  // What the turns so far say of the users who are logged in.
  datatype Board = Board(logs: map<nat, Log>, names: map<nat, string>)

  function Typed(board: Board, turn: Turn): Board {
    Board(Logs(board.logs, turn), Named(board.names, turn))
  }

  function AllTyped(turns: seq<Turn>): Board {
    if turns == [] then Board(map[], map[]) else Typed(AllTyped(turns[..|turns|-1]), turns[|turns|-1])
  }

  // A line that does not begin with one of the server's own words is for its parsed commands, which join
  // those typed before; one that does changes at most the name, and `exit` ends the session. The other
  // users are not concerned.
  lemma LineMeans(board: Board, u: nat, line: string)
    requires u in board.logs && u in board.names && u != 0
    ensures var ws, later := Fields(line, ' '), Typed(board, Input(u, line));
      && (ws != [] && ws[0] !in {"exit", "printenv", "setenv", "who", "yell", "tell", "name"} && Parsed(line).Ok? ==>
            && u in later.logs && later.logs[u].commands == board.logs[u].commands + Parsed(line).value && later.names == board.names)
      && (ws == [] || ws[0] in {"printenv", "setenv", "who", "yell", "tell"} ==> later == board)
      && (ws != [] && ws[0] == "name" ==> later.logs == board.logs)
      && (ws != [] && ws[0] == "exit" ==> u !in later.logs && u !in later.names)
      && (forall v :: v != u ==> (v in later.logs <==> v in board.logs) && (v in later.names <==> v in board.names))
      && (forall v :: v != u && v in board.logs ==> later.logs[v] == board.logs[v])
      && (forall v :: v != u && v in board.names ==> later.names[v] == board.names[v])
  {
  }

  // A command list written out as a line is logged as that list, each command at its line.
  lemma PrintedLineIsLogged(board: Board, u: nat, cs: seq<Command>)
    requires u in board.logs && u != 0
    requires ServerParser.CoherentChain(cs) && ServerPrinting.Separable(cs) && forall c :: c in cs ==> ServerPrinting.Expressible(c)
    requires ServerPrinting.Print(cs) != []
    requires ServerPrinting.Print(cs)[0] !in {"exit", "printenv", "setenv", "who", "yell", "tell", "name"}
    ensures var log := board.logs[u];
      Typed(board, Input(u, Join(ServerPrinting.Print(cs), ' '))).logs ==
        board.logs[u := Log(log.commands + cs, log.at + PlacesOf(cs, log.line), LineAfter(cs, log.line))]
  {
    ServerPrinting.RoundTrip(cs);
    ServerPrinting.PrintedAreFields(cs);
    FieldsOfJoin(ServerPrinting.Print(cs), ' ');
  }

  // The lines of a typed line: its k-th command is on from the first by the numbers that end commands
  // before it, and the next line begins one behind the last.
  lemma PlacesAre(cs: seq<Command>, first: nat, k: nat)
    requires k < |cs|
    ensures PlacesOf(cs, first)[0] == first
    ensures k > 0 ==> PlacesOf(cs, first)[k] == PlacesOf(cs, first)[k-1] + if cs[k-1].kind.NumberedPipe? then 1 else 0
    ensures LineAfter(cs, first) == PlacesOf(cs, first)[|cs|-1] + 1 && LineAfter([], first) == first + 1
  {
    PlaceAt(cs, first, 0);
    PlaceAt(cs, first, k);
    if k > 0 {
      PlaceAt(cs, first, k - 1);
      assert cs[..k][..k - 1] == cs[..k - 1];
    }
    PlaceAt(cs, first, |cs| - 1);
  }

  lemma {:induction false} PlaceAt(cs: seq<Command>, first: nat, k: nat)
    requires k < |cs|
    ensures PlacesOf(cs, first)[k] == first + UserLines.Numbers(cs[..k])
  {
    var n := |cs| - 1;
    if k < n {
      PlaceAt(cs[..n], first, k);
      assert cs[..n][..k] == cs[..k];
    }
  }

  // An arrival brings a new user with a blank log into the least free slot, or into slot 0; a hang-up
  // takes one user away.
  lemma ComingAndGoing(board: Board, u: nat)
    requires u != 0
    ensures var later := Typed(board, HangUp(u)); later.logs == board.logs - {u} && later.names == board.names - {u}
    ensures var id := NewSlot(board.logs.Keys);
      && Typed(board, Arrival).logs == board.logs[id := Log([], [], 0)]
      && (if id == 0 then forall v :: 1 <= v <= 30 ==> v in board.logs
          else id <= 30 && id !in board.logs && forall v :: 1 <= v < id ==> v in board.logs)
    ensures forall line :: Typed(board, Input(0, line)) == board == Typed(board, HangUp(0))
  {
    NewSlotMeans(board.logs.Keys);
  }

  // That turn gives user u the name x, which nobody in slots 1 to 30 has; that turn brings user u.
  predicate GivesName(names: map<nat, string>, turn: Turn, u: nat, x: string) {
    && turn.Input? && turn.user == u && u != 0 && u in names && Fields(turn.line, ' ') == ["name", x]
    && forall v :: 1 <= v <= 30 && v in names ==> names[v] != x
  }

  predicate Brings(names: map<nat, string>, turn: Turn, u: nat) {
    && turn.Arrival?
    && (if u == 0 then forall v :: 1 <= v <= 30 ==> v in names
        else u <= 30 && u !in names && forall v :: 1 <= v < u ==> v in names)
  }

  // The name x stems from turn k.
  predicate TitledAt(turns: seq<Turn>, k: nat, u: nat, x: string) {
    && k < |turns|
    && var names := AllTyped(turns[..k]).names;
       GivesName(names, turns[k], u, x) || (Brings(names, turns[k], u) && x == "(no name)")
  }

  ghost predicate LastTitled(turns: seq<Turn>, k: nat, u: nat, x: string) {
    TitledAt(turns, k, u, x) && forall m: nat, y :: m > k ==> !TitledAt(turns, m, u, y)
  }

  // Main result for names: a user's name is the last one that was free when the user asked for it since
  // arriving, else "(no name)".
  lemma {:induction false} NameIs(turns: seq<Turn>, u: nat) returns (k: nat)
    requires u in AllTyped(turns).names
    ensures LastTitled(turns, k, u, AllTyped(turns).names[u])
  {
    hide TitledAt, AllTyped;
    LastTitle(turns, u);
    var n, x := |turns| - 1, AllTyped(turns).names[u];
    forall m: nat, y ensures TitledAt(turns, m, u, y) ==> m <= n && (m < n ==> TitledAt(turns[..n], m, u, y)) {
      TitledEarlier(turns, m, u, y);
    }
    if TitledAt(turns, n, u, x) {
      k := n;
    } else {
      k := NameIs(turns[..n], u);
      TitledEarlier(turns, k, u, x);
    }
  }

  lemma TitledEarlier(turns: seq<Turn>, m: nat, u: nat, y: string)
    ensures TitledAt(turns, m, u, y) ==> m < |turns|
    ensures turns != [] && TitledAt(turns[..|turns|-1], m, u, y) ==> m < |turns| - 1
    ensures turns != [] && m < |turns| - 1 ==> TitledAt(turns, m, u, y) == TitledAt(turns[..|turns|-1], m, u, y)
  {
    if turns != [] && m < |turns| - 1 {
      assert turns[..|turns|-1][..m] == turns[..m] && turns[..|turns|-1][m] == turns[m];
    }
  }

  // The last turn gives the name, or leaves it alone.
  lemma LastTitle(turns: seq<Turn>, u: nat)
    requires u in AllTyped(turns).names
    ensures turns != []
    ensures var n, x := |turns| - 1, AllTyped(turns).names[u];
      TitledAt(turns, n, u, x) ||
      (u in AllTyped(turns[..n]).names && AllTyped(turns[..n]).names[u] == x && forall y :: !TitledAt(turns, n, u, y))
  {
    NameStep(AllTyped(turns[..|turns|-1]).names, turns[|turns|-1], u);
    hide GivesName, Brings, Named, Logs;
  }

  // What one turn does to a name.
  lemma NameStep(names: map<nat, string>, turn: Turn, u: nat)
    requires u in Named(names, turn)
    ensures var x := Named(names, turn)[u];
      && (Brings(names, turn, u) ==> x == "(no name)")
      && (forall y :: GivesName(names, turn, u, y) ==> x == y)
      && (!Brings(names, turn, u) && !GivesName(names, turn, u, x) ==> u in names && names[u] == x)
  {
    NewSlotMeans(names.Keys);
    hide NewSlot, Fields;
    if turn.Input? && turn.user == u && u != 0 && u in names && Renames(names, Fields(turn.line, ' ')) {
      var ws := Fields(turn.line, ' ');
      assert ws == ["name", ws[1]];
    }
  }

  lemma NewSlotMeans(taken: set<nat>)
    ensures var id := NewSlot(taken);
      if id == 0 then forall v :: 1 <= v <= 30 ==> v in taken
      else id <= 30 && id !in taken && forall v :: 1 <= v < id ==> v in taken
  {
  }

  // ----- What the server did --------------------------------------------------------------------------------

  datatype Deed = Came(user: nat) | Went(user: nat) | Ran(user: nat, children: seq<Child>)

  // All launched tables, in order.
  function Launched(deeds: seq<Deed>): seq<Table> {
    if deeds == [] then []
    else
      var last := deeds[|deeds|-1];
      Launched(deeds[..|deeds|-1]) + if last.Ran? then Tables(last.children) else []
  }

  // What a user has launched since logging in.
  function ChildrenOf(deeds: seq<Deed>, u: nat): seq<Child> {
    if deeds == [] then []
    else
      var last, before := deeds[|deeds|-1], ChildrenOf(deeds[..|deeds|-1], u);
      if last.user != u then before else if last.Ran? then before + last.children else []
  }

  lemma OneMoreDeed(deeds: seq<Deed>, d: Deed)
    ensures Launched(deeds + [d]) == Launched(deeds) + if d.Ran? then Tables(d.children) else []
    ensures forall u :: ChildrenOf(deeds + [d], u) ==
                        if d.user != u then ChildrenOf(deeds, u) else if d.Ran? then ChildrenOf(deeds, u) + d.children else []
  {
    assert (deeds + [d])[..|deeds|] == deeds;
  }

  // ----- The loop -------------------------------------------------------------------------------------------

  // Every logged-in user's launched commands are the commands of that user's own lines, at these lines.
  ghost predicate OnBoard(courses: map<nat, Course>, board: map<nat, Log>) {
    courses.Keys == board.Keys && forall u :: u in board ==> Logged(courses[u], board[u])
  }

  predicate Logged(course: Course, log: Log) {
    CommandsIn(course.children) == log.commands && course.at == log.at && course.session.line == log.line
  }

  // The deeds account for every launched process, and for each user's.
  ghost predicate Accounted(courses: map<nat, Course>, launched: seq<Table>, deeds: seq<Deed>) {
    launched == Launched(deeds) && forall u :: u in courses ==> courses[u].children == ChildrenOf(deeds, u)
  }

  // The turn is outside what is followed here: a line with a number that does not read, a list that is
  // not `Runnable`, or an empty list when a pipe is due; or a hang-up that leaves pipe records behind.
  ghost predicate Unfit(h: seq<Event>, courses: map<nat, Course>, turn: Turn) {
    match turn
    case Arrival => false
    case Input(u, line) =>
      && u != 0 && u in courses && !IsBuiltIn(Fields(line, ' '))
      && (Parsed(line).Ok? ==> !Runnable(h, u, Parsed(line).value) || !PassesNothing(courses[u].session, Parsed(line).value))
    case HangUp(u) => u != 0 && u in courses && !NoneWaits(h, u)
  }

  lemma NewSlotIs(taken: set<nat>, id: nat)
    requires UserPipes.NewSlot(id, taken)
    ensures id == NewSlot(taken)
  {
    SharedTable.LeastIs(taken, 1, if id == 0 then 31 else id);
  }

  lemma Arrived(courses: map<nat, Course>, board: map<nat, Log>, launched: seq<Table>, deeds: seq<Deed>, id: nat)
    requires OnBoard(courses, board) && Accounted(courses, launched, deeds)
    ensures OnBoard(courses[id := NEWCOMER], board[id := BLANK])
    ensures Accounted(courses[id := NEWCOMER], launched, deeds + [Came(id)])
  {
    hide Launched, ChildrenOf;
    OneMoreDeed(deeds, Came(id));
  }

  lemma Departed(courses: map<nat, Course>, board: map<nat, Log>, launched: seq<Table>, deeds: seq<Deed>, u: nat)
    requires OnBoard(courses, board) && Accounted(courses, launched, deeds)
    ensures OnBoard(courses - {u}, board - {u}) && Accounted(courses - {u}, launched, deeds + [Went(u)])
  {
    hide Launched, ChildrenOf, CommandsIn;
    OneMoreDeed(deeds, Went(u));
  }

  lemma Executed(courses: map<nat, Course>, board: map<nat, Log>, launched: seq<Table>, deeds: seq<Deed>,
                 u: nat, course: Course, log: Log, commands: seq<Command>, chs: seq<Child>)
    requires OnBoard(courses, board) && Accounted(courses, launched, deeds) && u in courses
    requires course.children == courses[u].children + chs && CommandsIn(chs) == commands
    requires u in board ==> log.commands == board[u].commands + commands && course.at == log.at && course.session.line == log.line
    ensures OnBoard(courses[u := course], board[u := log])
    ensures Accounted(courses[u := course], launched + Tables(chs), deeds + [Ran(u, chs)])
  {
    hide Launched, ChildrenOf, CommandsIn, Tables;
    CommandsJoin(courses[u].children, chs);
    OneMoreDeed(deeds, Ran(u, chs));
  }

  lemma DoneMeans(h0: seq<Event>, launched0: seq<Table>, children0: seq<Child>, users: set<nat>, me: nat, commands: seq<Command>,
                  h: seq<Event>, launched: seq<Table>, children: seq<Child>, chs: seq<Child>)
    requires Done(h0, launched0, children0, users, me, commands, h, launched, children, chs)
    ensures children == children0 + chs && CommandsIn(chs) == commands && launched == launched0 + Tables(chs)
  {
  }

  // The state of the server agrees with what was typed and with what was done.
  ghost predicate Agrees(ls: LineServer, board: Board, deeds: seq<Deed>)
    reads ls, ls.server, ls.server.process, ls.server.record
  {
    && ls.Valid() && ls.server.clients == board.names
    && OnBoard(ls.courses, board.logs) && Accounted(ls.courses, ls.server.launched, deeds)
  }

  lemma LoggedAt(courses: map<nat, Course>, board: map<nat, Log>, u: nat)
    requires OnBoard(courses, board) && u in courses
    ensures u in board && Logged(courses[u], board[u])
  {
  }

  method Arrive(ls: LineServer, ghost board: Board, ghost deeds: seq<Deed>) returns (ghost after: seq<Deed>)
    requires Agrees(ls, board, deeds)
    modifies ls, ls.server, ls.server.process, ls.server.record
    ensures Agrees(ls, Typed(board, Arrival), after)
  {
    hide LineServer.Valid, OnBoard, Accounted;
    ClientsAgree(ls);
    KeysAgree(ls.courses, board.logs);
    ghost var courses := ls.courses;
    var id := ls.Login();
    NewSlotIs(board.logs.Keys, id);
    Arrived(courses, board.logs, ls.server.launched, deeds, id);
    after := deeds + [Came(id)];
  }

  lemma ClientsAgree(ls: LineServer)
    requires ls.Valid()
    ensures ls.clients.Keys == ls.courses.Keys == ls.server.clients.Keys
  {
  }

  lemma KeysAgree(courses: map<nat, Course>, board: map<nat, Log>)
    requires OnBoard(courses, board)
    ensures courses.Keys == board.Keys
  {
  }

  // A line that the server handles itself.
  method HandleBuiltIn(ls: LineServer, u: nat, line: string, ghost board: Board, ghost deeds: seq<Deed>)
    returns (ghost after: seq<Deed>)
    requires Agrees(ls, board, deeds) && u in ls.courses && u != 0 && IsBuiltIn(Fields(line, ' '))
    modifies ls, ls.server, ls.server.process, ls.server.record
    ensures Agrees(ls, Typed(board, Input(u, line)), after)
  {
    hide LineServer.Valid, OnBoard, Accounted, Fields;
    KeysAgree(ls.courses, board.logs);
    ClientsAgree(ls);
    var tokens := Split(line, ' ');
    after := deeds;
    if IsExit(tokens) {
      Departed(ls.courses, board.logs, ls.server.launched, deeds, u);
      ls.Exit(u);
      after := deeds + [Went(u)];
    } else {
      if tokens != [] && tokens[0] == "name" && |tokens| == 2 {
        var _ := ls.Rename(u, tokens[1]);
      }
      assert Entered(board.logs[u], line) == board.logs[u] && board.logs == board.logs[u := board.logs[u]];
    }
  }

  // The end of a user's input.
  method EndInput(ls: LineServer, u: nat, ghost board: Board, ghost deeds: seq<Deed>)
    returns (ok: bool, ghost after: seq<Deed>)
    requires Agrees(ls, board, deeds) && u in ls.courses && u != 0
    modifies ls, ls.server, ls.server.process, ls.server.record
    ensures ok ==> Agrees(ls, Typed(board, Turn.HangUp(u)), after)
    ensures !ok ==> Agrees(ls, board, after) && Unfit(ls.server.history, ls.courses, Turn.HangUp(u))
  {
    hide LineServer.Valid, OnBoard, Accounted;
    KeysAgree(ls.courses, board.logs);
    after := deeds;
    ok := ls.CanHangUp(u);
    if ok {
      Departed(ls.courses, board.logs, ls.server.launched, deeds, u);
      ls.HangUp(u);
      after := deeds + [Went(u)];
    }
  }

  // A line that is parsed and run.
  method RunLine(ls: LineServer, u: nat, line: string, ghost board: Board, ghost deeds: seq<Deed>)
    returns (ok: bool, ghost after: seq<Deed>)
    requires Agrees(ls, board, deeds) && u in ls.courses && u != 0 && !IsBuiltIn(Fields(line, ' '))
    modifies ls, ls.server, ls.server.process, ls.server.record
    ensures ok ==> Agrees(ls, Typed(board, Input(u, line)), after)
    ensures !ok ==> Agrees(ls, board, after) && Unfit(ls.server.history, ls.courses, Input(u, line))
  {
    hide LineServer.Valid, OnBoard, Accounted, Fields, ServerParser.ParseFrom, Runnable, Done;
    KeysAgree(ls.courses, board.logs);
    after := deeds;
    var tokens := Split(line, ' ');
    var commands := ServerParser.Parse(tokens);
    if commands.Err? {
      return false, deeds;
    }
    ok := ls.CanRun(u, commands.value);
    if ok {
      ghost var courses, l0, h0, users := ls.courses, ls.server.launched, ls.server.history, ls.server.clients.Keys;
      ghost var chs := ls.ExecuteCommands(u, commands.value);
      DoneMeans(h0, l0, courses[u].children, users, u, commands.value,
                ls.server.history, ls.server.launched, ls.courses[u].children, chs);
      LoggedAt(courses, board.logs, u);
      assert CommandsOf(line) == commands.value;
      Executed(courses, board.logs, l0, deeds, u, ls.courses[u], Entered(board.logs[u], line), commands.value, chs);
      after := deeds + [Ran(u, chs)];
    }
  }

  // Each user's processes are wired as that user's own lines say, and the tables at exec are that wiring
  // with the user pipes plugged in.
  ghost predicate WiredAsTyped(host: Host, board: map<nat, Log>, courses: map<nat, Course>) {
    forall u :: u in courses ==> u in board && CourseIsWired(host, board[u], courses[u])
  }

  ghost predicate CourseIsWired(host: Host, log: Log, course: Course) {
    && |course.children| == |course.session.procs|
    && Wired(host, log.commands, log.at, course.session.procs)
    && (forall k :: 0 <= k < |course.children| ==> Plugged(host, course.children[k], course.session.procs[k]))
  }

  lemma AgreesIsWired(ls: LineServer, board: Board, deeds: seq<Deed>)
    requires Agrees(ls, board, deeds)
    ensures Standard(ls.server.init) && WiredAsTyped(ls.TheHost(), board.logs, ls.courses)
  {
    hide LineServer.Valid, Wired, Plugged, Accounted;
    ls.HostStands();
    forall u | u in ls.courses ensures u in board.logs && CourseIsWired(ls.TheHost(), board.logs[u], ls.courses[u]) {
      ls.EachUserIsWired(u);
    }
  }

  // Main result: whatever the users type, in whatever order they come, type and go, each user's
  // processes are wired as that user's own lines say, as if the user were alone; and every launched
  // process is one of these, in order. The loop takes the turns one by one, up to the first that is
  // `Unfit`.
  method Serve(ls: LineServer, turns: seq<Turn>) returns (taken: nat, ghost deeds: seq<Deed>)
    requires ls.Valid() && ls.courses == map[] && ls.server.launched == []
    modifies ls, ls.server, ls.server.process, ls.server.record
    ensures taken <= |turns| && (taken < |turns| ==> Unfit(ls.server.history, ls.courses, turns[taken]))
    ensures Agrees(ls, AllTyped(turns[..taken]), deeds)
    ensures ls.server.clients == AllTyped(turns[..taken]).names
    ensures Standard(ls.server.init) && WiredAsTyped(ls.TheHost(), AllTyped(turns[..taken]).logs, ls.courses)
  {
    hide LineServer.Valid, Typed, Unfit, WiredAsTyped;
    taken, deeds := 0, [];
    ClientsAgree(ls);
    assert ls.server.clients == map[];
    AgreesIsWired(ls, Board(map[], map[]), []);
    while taken < |turns|
      invariant taken <= |turns| && Agrees(ls, AllTyped(turns[..taken]), deeds)
      invariant WiredAsTyped(ls.TheHost(), AllTyped(turns[..taken]).logs, ls.courses)
    {
      ghost var board := AllTyped(turns[..taken]);
      var turn := turns[taken];
      assert turns[..taken + 1][..taken] == turns[..taken];
      var ok;
      ok, deeds := TakeTurn(ls, turn, board, deeds);
      AgreesIsWired(ls, if ok then Typed(board, turn) else board, deeds);
      if !ok {
        return;
      }
      taken := taken + 1;
    }
  }

  method TakeTurn(ls: LineServer, turn: Turn, ghost board: Board, ghost deeds: seq<Deed>)
    returns (ok: bool, ghost after: seq<Deed>)
    requires Agrees(ls, board, deeds)
    modifies ls, ls.server, ls.server.process, ls.server.record
    ensures ok ==> Agrees(ls, Typed(board, turn), after)
    ensures !ok ==> Agrees(ls, board, after) && Unfit(ls.server.history, ls.courses, turn)
  {
    hide LineServer.Valid, OnBoard, Accounted, Fields, Unfit, IsBuiltIn;
    KeysAgree(ls.courses, board.logs);
    ClientsAgree(ls);
    ok, after := true, deeds;
    match turn {
      case Arrival =>
        after := Arrive(ls, board, deeds);
      case Input(u, line) =>
        if u != 0 && u in ls.clients {
          var tokens := Split(line, ' ');
          if IsBuiltIn(tokens) {
            after := HandleBuiltIn(ls, u, line, board, deeds);
          } else {
            ok, after := RunLine(ls, u, line, board, deeds);
          }
        }
      case HangUp(u) =>
        if u != 0 && u in ls.clients {
          ok, after := EndInput(ls, u, board, deeds);
        } else {
          assert u !in board.logs ==> board.logs - {u} == board.logs && board.names - {u} == board.names;
        }
    }
  }

  // The server from its start.
  method RunServer(process: Process, writable: set<string>, turns: seq<Turn>)
    returns (ls: LineServer, taken: nat, ghost deeds: seq<Deed>)
    requires Standard(process.fds)
    requires forall f :: f in process.fds ==> process.fds[f].Inherited?
    modifies process
    ensures taken <= |turns| && (taken < |turns| ==> Unfit(ls.server.history, ls.courses, turns[taken]))
    ensures Agrees(ls, AllTyped(turns[..taken]), deeds)
    ensures Standard(ls.server.init) && WiredAsTyped(ls.TheHost(), AllTyped(turns[..taken]).logs, ls.courses)
  {
    hide UserPipes.Server.Valid;
    var server := new UserPipes.Server(process, writable);
    ls := new LineServer(server);
    taken, deeds := Serve(ls, turns);
  }
}
