/** Printing command lists in the servers' syntax, and reading them back. */
module ServerPrinting {
  import opened Outcomes
  import opened Commands
  import opened Numbers
  import opened ServerParser
  import opened Tokens
  import LineParser

  // `<n`, and what ends the command: `|`, `|n`, `!n`, `> file`, `>n` or nothing.
  function PrintIn(c: Command): seq<string> {
    if c.userIn && c.inId >= 0 then ["<" + ToString(c.inId)] else []
  }

  function PrintEnd(c: Command): seq<string> {
    match c.kind
    case NumberedPipe => [[if c.pipeStderr then '!' else '|'] + ToString(c.pipeNumber)]
    case Redirect => [">", c.fileName]
    case Pipe => if c.pipeAfter then ["|"] else if c.userOut && c.outId >= 0 then [">" + ToString(c.outId)] else []
  }

  function Print(cs: seq<Command>): seq<string> {
    if cs == [] then [] else cs[0].argv + PrintIn(cs[0]) + PrintEnd(cs[0]) + Print(cs[1..])
  }

  predicate Word(t: string) {
    t != [] && forall ch :: ch in t ==> ch !in " |!<>"
  }

  // A command that a line can express: numbers without a sign, and something to stand for it at the end.
  predicate Expressible(c: Command) {
    && (forall t :: t in c.argv ==> Word(t))
    && LineParser.OfItsKind(c)
    && (if c.userIn then 0 <= c.inId <= INT_MAX else c.inId == 0)
    && (if c.userOut then 0 <= c.outId <= INT_MAX && c.kind.Pipe? && !c.pipeAfter else c.outId == 0)
    && (c.kind.Pipe? && !c.pipeAfter && !c.userOut ==> c.argv != [] || c.userIn)
  }

  // After `>n` a line cannot go on with `<m` alone, which would belong to the command before.
  predicate Separable(cs: seq<Command>) {
    forall k :: 0 < k < |cs| && cs[k-1].userOut && cs[k].argv == [] ==> !cs[k].userIn
  }

  // ----- Tokens ---------------------------------------------------------------------------------------------

  lemma DigitsArePlain(n: nat)
    ensures forall ch :: ch in ToString(n) ==> ch !in " |!<>"
  {
  }

  lemma WordIsPlain(t: string)
    requires Word(t)
    ensures !IsLink(t) && !IsOut(t) && !IsIn(t) && '<' !in t && ' ' !in t
  {
  }

  lemma InToken(c: Command)
    requires c.userIn && 0 <= c.inId <= INT_MAX
    ensures var t := PrintIn(c)[0]; IsIn(t) && Stoi(t[1..]) == Ok(c.inId)
  {
    var t := "<" + ToString(c.inId);
    assert t[1..] == ToString(c.inId) && t[0] == '<';
    DigitsArePlain(c.inId);
    StoiOfToString(c.inId);
  }

  lemma OutToken(c: Command)
    requires c.kind.Pipe? && !c.pipeAfter && c.userOut && 0 <= c.outId <= INT_MAX
    ensures var t := PrintEnd(c)[0]; IsOut(t) && t != ">" && Stoi(t[1..]) == Ok(c.outId) && '<' !in t
  {
    var t := ">" + ToString(c.outId);
    assert t[1..] == ToString(c.outId) && t[0] == '>' && |t| > 1;
    DigitsArePlain(c.outId);
    StoiOfToString(c.outId);
  }

  lemma LinkToken(c: Command)
    requires c.kind.NumberedPipe? && c.pipeNumber <= INT_MAX
    ensures var t := PrintEnd(c)[0];
      IsLink(t) && t != "|" && Stoi(t[1..]) == Ok(c.pipeNumber) && ('|' !in t <==> c.pipeStderr) && '<' !in t
  {
    var t := PrintEnd(c)[0];
    assert t[1..] == ToString(c.pipeNumber) && t[0] in t;
    DigitsArePlain(c.pipeNumber);
    StoiOfToString(c.pipeNumber);
  }

  // ----- One command ----------------------------------------------------------------------------------------

  lemma {:induction false} ParseWords(ws: seq<string>, rest: seq<string>, st: State)
    requires (forall t :: t in ws ==> Word(t)) && rest != []
    ensures ParseFrom(ws + rest, st) == ParseFrom(rest, st.(argv := st.argv + ws))
  {
    if ws == [] {
      assert ws + rest == rest && st.argv + ws == st.argv;
    } else {
      assert ws[0] in ws;
      WordIsPlain(ws[0]);
      assert (ws + rest)[1..] == ws[1..] + rest;
      ParseWords(ws[1..], rest, st.(argv := st.argv + [ws[0]]));
      assert st.argv + [ws[0]] + ws[1..] == st.argv + ws;
    }
  }

  // The state once the words and `<n` have been read.
  function Read(c: Command, inId: int): State {
    State(c.argv, c.pipeBefore, c.numberedBefore, c.userIn, if c.userIn then c.inId else inId)
  }

  lemma ParseFront(c: Command, rest: seq<string>, inId: int)
    requires Expressible(c) && rest != []
    ensures ParseFrom(c.argv + PrintIn(c) + rest, State([], c.pipeBefore, c.numberedBefore, false, inId)) == ParseFrom(rest, Read(c, inId))
  {
    var tail := PrintIn(c) + rest;
    assert c.argv + PrintIn(c) + rest == c.argv + tail && [] + c.argv == c.argv;
    ParseWords(c.argv, tail, State([], c.pipeBefore, c.numberedBefore, false, inId));
    if c.userIn {
      InToken(c);
      assert tail[0] == PrintIn(c)[0] && tail[1..] == rest;
    } else {
      assert tail == rest;
    }
  }

  // What ends a command that another one follows.
  lemma ParseLink(c: Command, rest: seq<string>, inId: int)
    requires Expressible(c) && c.numberedAfter
    ensures ParseFrom(PrintEnd(c) + rest, Read(c, inId)) ==
            LineParser.Prepend(c, ParseFrom(rest, State([], false, true, false, Read(c, inId).inId)))
  {
    LinkToken(c);
    var tail := PrintEnd(c) + rest;
    assert tail[0] == PrintEnd(c)[0] && tail[1..] == rest;
    hide Stoi, ToString, Word, ParseFrom;
    assert LinkCommand(tail[0], Read(c, inId)) == Ok(c);
    LinkStep(tail, Read(c, inId));
  }

  lemma ParseBar(c: Command, rest: seq<string>, inId: int)
    requires Expressible(c) && c.pipeAfter
    ensures ParseFrom(PrintEnd(c) + rest, Read(c, inId)) ==
            LineParser.Prepend(c, ParseFrom(rest, State([], true, false, false, Read(c, inId).inId)))
  {
    var tail := PrintEnd(c) + rest;
    assert tail[0] == "|" && tail[1..] == rest;
    hide Stoi, ToString, Word, ParseFrom;
    assert LinkCommand(tail[0], Read(c, inId)) == Ok(c);
    LinkStep(tail, Read(c, inId));
  }

  lemma LinkStep(tokens: seq<string>, st: State)
    requires tokens != [] && IsLink(tokens[0]) && LinkCommand(tokens[0], st).Ok?
    ensures ParseFrom(tokens, st) == LineParser.Prepend(LinkCommand(tokens[0], st).value,
      ParseFrom(tokens[1..], State([], tokens[0] == "|", tokens[0] != "|", false, st.inId)))
  {
    hide Stoi;
  }

  lemma ParseOut(c: Command, rest: seq<string>, inId: int)
    requires Expressible(c) && c.userOut && (rest != [] ==> '<' !in rest[0])
    ensures ParseFrom(PrintEnd(c) + rest, Read(c, inId)) ==
            LineParser.Prepend(c, ParseFrom(rest, State([], false, false, false, Read(c, inId).inId)))
  {
    OutToken(c);
    var tail := PrintEnd(c) + rest;
    assert tail[0] == PrintEnd(c)[0] && tail[1..] == rest;
    hide Stoi, ToString, Word;
    assert OutCommand(Read(c, inId), c.outId) == c;
  }

  // A command that another one follows.
  lemma ParseOne(c: Command, rest: seq<string>, inId: int)
    requires Expressible(c) && (c.pipeAfter || c.numberedAfter || c.userOut)
    requires c.userOut && rest != [] ==> '<' !in rest[0]
    ensures ParseFrom(c.argv + PrintIn(c) + PrintEnd(c) + rest, State([], c.pipeBefore, c.numberedBefore, false, inId)) ==
            LineParser.Prepend(c, ParseFrom(rest, State([], c.pipeAfter, c.numberedAfter, false, Read(c, inId).inId)))
  {
    hide ParseFrom, Read, PrintIn;
    assert c.argv + PrintIn(c) + PrintEnd(c) + rest == c.argv + PrintIn(c) + (PrintEnd(c) + rest);
    ParseFront(c, PrintEnd(c) + rest, inId);
    if c.numberedAfter {
      ParseLink(c, rest, inId);
    } else if c.pipeAfter {
      ParseBar(c, rest, inId);
    } else {
      ParseOut(c, rest, inId);
    }
  }

  // A command that nothing needs to follow.
  lemma ParseLast(c: Command, inId: int)
    requires Expressible(c) && !c.pipeAfter && !c.numberedAfter && !c.userOut
    ensures ParseFrom(c.argv + PrintIn(c) + PrintEnd(c), State([], c.pipeBefore, c.numberedBefore, false, inId)) == Ok([c])
  {
    if c.kind.Redirect? {
      ParseFront(c, [">", c.fileName], inId);
    } else if c.userIn {
      ParseLastIn(c, inId);
    } else {
      var n := |c.argv| - 1;
      assert c.argv + PrintIn(c) + PrintEnd(c) == c.argv[..n] + [c.argv[n]];
      assert c.argv[n] in c.argv;
      ParseWords(c.argv[..n], [c.argv[n]], State([], c.pipeBefore, c.numberedBefore, false, inId));
      WordIsPlain(c.argv[n]);
      assert [] + c.argv[..n] + [c.argv[n]] == c.argv;
    }
  }

  lemma ParseLastIn(c: Command, inId: int)
    requires Expressible(c) && c.kind.Pipe? && !c.pipeAfter && !c.userOut && c.userIn
    ensures ParseFrom(c.argv + PrintIn(c) + PrintEnd(c), State([], c.pipeBefore, c.numberedBefore, false, inId)) == Ok([c])
  {
    assert c.argv + PrintIn(c) + PrintEnd(c) == c.argv + PrintIn(c) && [] + c.argv == c.argv;
    ParseWords(c.argv, PrintIn(c), State([], c.pipeBefore, c.numberedBefore, false, inId));
    InToken(c);
    assert PrintIn(c)[1..] == [];
    hide Stoi, ToString, Word;
  }

  // ----- The whole line ---------------------------------------------------------------------------------------

  // A printed command does not begin with `<`, unless it is one that cannot follow `>n`.
  lemma PrintBegins(cs: seq<Command>)
    requires cs != [] && Expressible(cs[0]) && (cs[0].argv == [] ==> !cs[0].userIn)
    ensures Print(cs) != [] && '<' !in Print(cs)[0]
  {
    var c := cs[0];
    if c.argv != [] {
      assert c.argv[0] in c.argv;
      WordIsPlain(c.argv[0]);
    } else if c.kind.NumberedPipe? {
      LinkToken(c);
    } else if c.kind.Pipe? && !c.pipeAfter {
      OutToken(c);
    }
  }

  lemma RestIsSeparable(cs: seq<Command>)
    requires (forall c :: c in cs ==> Expressible(c)) && Separable(cs) && cs != []
    ensures Expressible(cs[0]) && (forall c :: c in cs[1..] ==> Expressible(c)) && Separable(cs[1..])
    ensures cs[0].userOut && cs[1..] != [] && cs[1].argv == [] ==> !cs[1].userIn
  {
    var rest := cs[1..];
    assert cs[0] in cs && forall d :: d in rest ==> d in cs;
    assert forall k :: 0 < k < |rest| ==> rest[k] == cs[k + 1] && rest[k-1] == cs[k];
  }

  lemma {:induction false} ParsePrinted(cs: seq<Command>, pipeBefore: bool, numberedBefore: bool, inId: int)
    requires (forall c :: c in cs ==> Expressible(c)) && Separable(cs)
    requires ServerParser.Continues(cs, pipeBefore, numberedBefore)
    ensures ParseFrom(Print(cs), State([], pipeBefore, numberedBefore, false, inId)) == Ok(cs)
  {
    if cs != [] {
      var c, rest := cs[0], cs[1..];
      RestIsSeparable(cs);
      hide Separable, Expressible, PrintIn, PrintEnd, ParseFrom;
      if c.pipeAfter || c.numberedAfter || c.userOut {
        ParsePrinted(rest, c.pipeAfter, c.numberedAfter, Read(c, inId).inId);
        if c.userOut && rest != [] { PrintBegins(rest); }
        ParseOne(c, Print(rest), inId);
        assert [c] + rest == cs;
      } else {
        assert cs == [c] && Print(rest) == [];
        assert c.argv + PrintIn(c) + PrintEnd(c) + [] == c.argv + PrintIn(c) + PrintEnd(c);
        ParseLast(c, inId);
      }
    }
  }

  lemma {:induction false} PrintedAreFields(cs: seq<Command>)
    requires forall c :: c in cs ==> Expressible(c)
    ensures forall t :: t in Print(cs) ==> t != [] && ' ' !in t
  {
    if cs != [] {
      var c := cs[0];
      assert c in cs;
      PrintedAreFields(cs[1..]);
      forall t | t in PrintIn(c) + PrintEnd(c) ensures t != [] && ' ' !in t {
        if c.userIn { DigitsArePlain(c.inId); }
        if c.userOut { DigitsArePlain(c.outId); }
        DigitsArePlain(c.pipeNumber);
      }
      forall t | t in c.argv ensures t != [] && ' ' !in t { WordIsPlain(t); }
    }
  }

  lemma {:induction false} ChainContinues(cs: seq<Command>, k: nat)
    requires ServerParser.CoherentChain(cs) && k <= |cs|
    ensures ServerParser.Continues(cs[k..], k > 0 && cs[k-1].pipeAfter, k > 0 && cs[k-1].numberedAfter)
    decreases |cs| - k
  {
    if k < |cs| {
      ChainContinues(cs, k + 1);
      assert cs[k..][1..] == cs[k + 1..];
    }
  }

  // Main result: a command list with numbered, ordinary and user pipes, printed as one line, splits and
  // parses back to itself: words, links, numbers, file, and which user each pipe comes from and goes to.
  lemma RoundTrip(cs: seq<Command>)
    requires ServerParser.CoherentChain(cs) && Separable(cs) && forall c :: c in cs ==> Expressible(c)
    ensures ParseFrom(Fields(Join(Print(cs), ' '), ' '), FRESH) == Ok(cs)
  {
    PrintedAreFields(cs);
    FieldsOfJoin(Print(cs), ' ');
    ChainContinues(cs, 0);
    assert cs[0..] == cs;
    ParsePrinted(cs, false, false, 0);
  }
}
