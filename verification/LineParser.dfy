/** The pipeline parser: from tokens to linked commands, and back. */
module LineParser {
  import opened Outcomes
  import opened Commands
  import opened Numbers
  import opened Tokens

  // A token that ends a command and starts the next one.
  predicate IsLink(t: string) { '|' in t || '!' in t }

  // A token after which nothing more is parsed.
  predicate IsStop(t: string) { !IsLink(t) && '>' in t }

  predicate IsWord(t: string) { !IsLink(t) && !IsStop(t) }

  // What the loop carries from token to token.
  datatype State = State(argv: seq<string>, pipeBefore: bool, numberedBefore: bool)

  const FRESH := State([], false, false)

  // An int stored in an unsigned variable.
  function Unsigned(v: int): nat {
    v % 0x1_0000_0000
  }

  // The command that a link token ends, or the error of the number parser.
  function LinkCommand(t: string, st: State): Result<Command>
    requires IsLink(t)
  {
    if t == "|" then Ok(PlainCommand(st.argv, st.pipeBefore, true, st.numberedBefore))
    else match Stoi(t[1..])
      case Err(e) => Err(e)
      case Ok(v) => Ok(NumberedCommand(st.argv, Unsigned(v), st.pipeBefore, st.numberedBefore, '|' !in t))
  }

  function AfterLink(t: string): State {
    State([], t == "|", t != "|")
  }

  function Prepend(c: Command, r: Result<seq<Command>>): Result<seq<Command>> {
    match r case Ok(cs) => Ok([c] + cs) case Err(e) => Err(e)
  }

  function PrependAll(cs: seq<Command>, r: Result<seq<Command>>): Result<seq<Command>> {
    match r case Ok(ds) => Ok(cs + ds) case Err(e) => Err(e)
  }

  lemma PrependNext(cs: seq<Command>, c: Command, r: Result<seq<Command>>)
    ensures PrependAll(cs, Prepend(c, r)) == PrependAll(cs + [c], r)
  {
    if r.Ok? { assert cs + ([c] + r.value) == cs + [c] + r.value; }
  }

  function ParseFrom(tokens: seq<string>, st: State): Result<seq<Command>> {
    if tokens == [] then Ok([])
    else
      var t := tokens[0];
      if IsLink(t) then
        match LinkCommand(t, st)
        case Err(e) => Err(e)
        case Ok(c) => Prepend(c, ParseFrom(tokens[1..], AfterLink(t)))
      else if IsStop(t) then
        Ok(if |tokens| == 1 then [] else [RedirectCommand(st.argv, tokens[1], st.pipeBefore, st.numberedBefore)])
      else if |tokens| == 1 then
        Ok([PlainCommand(st.argv + [t], st.pipeBefore, false, st.numberedBefore)])
      else
        ParseFrom(tokens[1..], st.(argv := st.argv + [t]))
  }

  method Parse(tokens: seq<string>) returns (r: Result<seq<Command>>)
    ensures r == ParseFrom(tokens, FRESH)
  {
    var commands: seq<Command> := [];
    var argv: seq<string> := [];
    var pipeBefore, numberedBefore := false, false;
    var n := |tokens|;
    var i := 0;
    assert tokens[0..] == tokens;
    assert forall ds: seq<Command> :: commands + ds == ds;
    while i < n
      invariant 0 <= i <= n
      invariant ParseFrom(tokens, FRESH) == PrependAll(commands, ParseFrom(tokens[i..], State(argv, pipeBefore, numberedBefore)))
    {
      var t := tokens[i];
      ghost var st := State(argv, pipeBefore, numberedBefore);
      assert tokens[i..][1..] == tokens[i + 1..];
      if IsLink(t) && LinkCommand(t, st).Ok? {
        PrependNext(commands, LinkCommand(t, st).value, ParseFrom(tokens[i + 1..], AfterLink(t)));
      }
      if '|' in t {
        if t == "|" {
          commands := commands + [PlainCommand(argv, pipeBefore, true, numberedBefore)];
          pipeBefore, numberedBefore, argv := true, false, [];
        } else {
          var v := Stoi(t[1..]);
          if v.Err? { return Err(v.error); }
          commands := commands + [NumberedCommand(argv, Unsigned(v.value), pipeBefore, numberedBefore, false)];
          pipeBefore, numberedBefore, argv := false, true, [];
        }
      } else if '!' in t {
        var v := Stoi(t[1..]);
        if v.Err? { return Err(v.error); }
        commands := commands + [NumberedCommand(argv, Unsigned(v.value), pipeBefore, numberedBefore, true)];
        pipeBefore, numberedBefore, argv := false, true, [];
      } else if '>' in t {
        if i == n - 1 {
          assert commands + [] == commands;
          return Ok(commands);
        } else {
          return Ok(commands + [RedirectCommand(argv, tokens[i + 1], pipeBefore, numberedBefore)]);
        }
      } else if i == n - 1 {
        argv := argv + [t];
        return Ok(commands + [PlainCommand(argv, pipeBefore, false, numberedBefore)]);
      } else {
        argv := argv + [t];
      }
      i := i + 1;
    }
    assert tokens[i..] == [] && commands + [] == commands;
    return Ok(commands);
  }

  // ----- Printing ----------------------------------------------------------------------------------

  function PrintLink(c: Command): seq<string> {
    match c.kind
    case Pipe => if c.pipeAfter then ["|"] else []
    case NumberedPipe => [[if c.pipeStderr then '!' else '|'] + ToString(c.pipeNumber)]
    case Redirect => [">", c.fileName]
  }

  function PrintCommands(cs: seq<Command>): seq<string> {
    if cs == [] then [] else cs[0].argv + PrintLink(cs[0]) + PrintCommands(cs[1..])
  }

  predicate PlainWord(t: string) {
    t != [] && ' ' !in t && IsWord(t)
  }

  // A command whose fields are those that a line can express.
  predicate Expressible(c: Command) {
    && (forall t :: t in c.argv ==> PlainWord(t))
    && !c.userIn && !c.userOut && c.inId == 0 && c.outId == 0
    && OfItsKind(c) && (c.kind.Pipe? ==> c.pipeAfter || c.argv != [])
  }

  // The fields that belong to the other kinds are blank.
  predicate OfItsKind(c: Command) {
    && (c.numberedAfter <==> c.kind.NumberedPipe?) && (c.pipeAfter ==> c.kind.Pipe?) && (c.pipeStderr ==> c.kind.NumberedPipe?)
    && (if c.kind.NumberedPipe? then c.pipeNumber <= INT_MAX else c.pipeNumber == 0)
    && (if c.kind.Redirect? then c.fileName != [] && ' ' !in c.fileName else c.fileName == "")
  }

  // The flags of cs continue a line whose last link was `st`.
  ghost predicate Continues(cs: seq<Command>, st: State) {
    cs != [] ==>
      && cs[0].pipeBefore == st.pipeBefore && cs[0].numberedBefore == st.numberedBefore
      && (|cs| > 1 ==> cs[0].pipeAfter || cs[0].numberedAfter)
      && Continues(cs[1..], State([], cs[0].pipeAfter, cs[0].numberedAfter))
  }

  lemma {:induction false} ParseWords(ws: seq<string>, rest: seq<string>, st: State)
    requires forall t :: t in ws ==> IsWord(t)
    requires rest != []
    ensures ParseFrom(ws + rest, st) == ParseFrom(rest, st.(argv := st.argv + ws))
  {
    if ws == [] {
      assert ws + rest == rest && st.argv + ws == st.argv;
    } else {
      assert ws[0] in ws;
      assert (ws + rest)[1..] == ws[1..] + rest;
      ParseWords(ws[1..], rest, st.(argv := st.argv + [ws[0]]));
      assert st.argv + [ws[0]] + ws[1..] == st.argv + ws;
    }
  }

  lemma LinkTokens(c: Command)
    requires c.kind.NumberedPipe? && c.pipeNumber <= INT_MAX
    ensures var t := PrintLink(c)[0];
      IsLink(t) && t != "|" && Stoi(t[1..]) == Ok(c.pipeNumber) && ('|' !in t <==> c.pipeStderr)
  {
    var t := PrintLink(c)[0];
    assert t[1..] == ToString(c.pipeNumber);
    assert t[0] in t;
    StoiOfToString(c.pipeNumber);
    assert '|' !in ToString(c.pipeNumber);
  }

  lemma PlainEnd(argv: seq<string>, st: State)
    requires argv != [] && forall t :: t in argv ==> IsWord(t)
    ensures ParseFrom(argv, st) == Ok([PlainCommand(st.argv + argv, st.pipeBefore, false, st.numberedBefore)])
  {
    var n := |argv| - 1;
    assert argv == argv[..n] + [argv[n]];
    ParseWords(argv[..n], [argv[n]], st);
    assert argv[n] in argv;
    assert st.argv + argv[..n] + [argv[n]] == st.argv + argv;
  }

  lemma PrintedLink(c: Command, rest: seq<string>, st: State)
    requires Expressible(c) && Coherent(c) && (c.pipeAfter || c.numberedAfter) && st.argv == []
    requires c.pipeBefore == st.pipeBefore && c.numberedBefore == st.numberedBefore
    ensures ParseFrom(c.argv + PrintLink(c) + rest, st) == Prepend(c, ParseFrom(rest, State([], c.pipeAfter, c.numberedAfter)))
  {
    assert forall t :: t in c.argv ==> IsWord(t);
    hide Stoi, ToString, PlainWord, IsWord;
    var tail, link := PrintLink(c) + rest, PrintLink(c)[0];
    assert c.argv + PrintLink(c) + rest == c.argv + tail;
    ParseWords(c.argv, tail, st);
    assert st.argv + c.argv == c.argv && tail[0] == link && tail[1..] == rest;
    if c.numberedAfter { LinkTokens(c); }
    assert LinkCommand(link, st.(argv := c.argv)) == Ok(c);
  }

  lemma PrintedEnd(c: Command, st: State)
    requires Expressible(c) && Coherent(c) && !c.pipeAfter && !c.numberedAfter && st.argv == []
    requires c.pipeBefore == st.pipeBefore && c.numberedBefore == st.numberedBefore
    ensures ParseFrom(c.argv + PrintLink(c), st) == Ok([c])
  {
    assert st.argv + c.argv == c.argv;
    if c.kind.Pipe? {
      assert c.argv + PrintLink(c) == c.argv;
      PlainEnd(c.argv, st);
    } else {
      ParseWords(c.argv, [">", c.fileName], st);
    }
  }

  lemma {:induction false} ParsePrinted(cs: seq<Command>, st: State)
    requires forall c :: c in cs ==> Coherent(c) && Expressible(c)
    requires Continues(cs, st) && st.argv == []
    ensures ParseFrom(PrintCommands(cs), st) == Ok(cs)
  {
    if cs == [] {
    } else {
      var c, rest := cs[0], PrintCommands(cs[1..]);
      assert c in cs;
      if c.pipeAfter || c.numberedAfter {
        ParsePrinted(cs[1..], State([], c.pipeAfter, c.numberedAfter));
        PrintedLink(c, rest, st);
        assert [c] + cs[1..] == cs;
      } else {
        assert cs == [c] && rest == [];
        assert c.argv + PrintLink(c) + rest == c.argv + PrintLink(c);
        PrintedEnd(c, st);
      }
    }
  }

  lemma {:induction false} ChainContinues(cs: seq<Command>, k: nat)
    requires Chain(cs) && k <= |cs|
    ensures Continues(cs[k..], State([], k > 0 && cs[k-1].pipeAfter, k > 0 && cs[k-1].numberedAfter))
    decreases |cs| - k
  {
    if k < |cs| {
      assert cs[k].pipeBefore == FollowsPipe(cs, k) && cs[k].numberedBefore == FollowsNumber(cs, k);
      ChainContinues(cs, k + 1);
      assert cs[k..][1..] == cs[k + 1..];
    }
  }

  lemma {:induction false} PrintedTokensAreFields(cs: seq<Command>)
    requires forall c :: c in cs ==> Expressible(c)
    ensures forall t :: t in PrintCommands(cs) ==> t != [] && ' ' !in t
  {
    if cs != [] {
      assert cs[0] in cs;
      PrintedTokensAreFields(cs[1..]);
      forall t | t in PrintLink(cs[0]) ensures t != [] && ' ' !in t {
        if cs[0].kind.NumberedPipe? {
          assert ' ' !in ToString(cs[0].pipeNumber);
        }
      }
    }
  }

  // Main result: a well-formed command list, printed as one line, splits and parses back to itself.
  lemma RoundTrip(cs: seq<Command>)
    requires Chain(cs) && forall c :: c in cs ==> Expressible(c)
    ensures ParseFrom(Fields(Join(PrintCommands(cs), ' '), ' '), FRESH) == Ok(cs)
  {
    PrintedTokensAreFields(cs);
    FieldsOfJoin(PrintCommands(cs), ' ');
    ChainContinues(cs, 0);
    assert cs[0..] == cs;
    ParsePrinted(cs, FRESH);
  }
}
