/** The servers' parser, which adds `<n` and `>n` to the pipeline syntax. */
module ServerParser {
  import opened Outcomes
  import opened Commands
  import opened Numbers
  import LineParser

  predicate IsLink(t: string) { LineParser.IsLink(t) }

  // A token with `>`: a file redirection if it is just that, else a pipe to a user.
  predicate IsOut(t: string) { !IsLink(t) && '>' in t }

  predicate IsIn(t: string) { !IsLink(t) && !IsOut(t) && '<' in t }

  // What the loop carries; `inId` is kept even when `userIn` is cleared.
  datatype State = State(argv: seq<string>, pipeBefore: bool, numberedBefore: bool, userIn: bool, inId: int)

  const FRESH := State([], false, false, false, 0)

  function WithInput(c: Command, st: State): Command {
    if st.userIn then c.(userIn := true, inId := st.inId) else c
  }

  function LinkCommand(t: string, st: State): Result<Command>
    requires IsLink(t)
  {
    match LineParser.LinkCommand(t, LineParser.State(st.argv, st.pipeBefore, st.numberedBefore))
    case Ok(c) => Ok(WithInput(c, st))
    case Err(e) => Err(e)
  }

  // The command that `>n` ends; a following `<m` belongs to it.
  function OutCommand(st: State, outId: int): Command {
    WithInput(PlainCommand(st.argv, st.pipeBefore, false, st.numberedBefore), st).(userOut := true, outId := outId)
  }

  function ParseFrom(tokens: seq<string>, st: State): Result<seq<Command>>
    decreases |tokens|
  {
    if tokens == [] then Ok([])
    else
      var t, rest := tokens[0], tokens[1..];
      if IsLink(t) then
        match LinkCommand(t, st)
        case Err(e) => Err(e)
        case Ok(c) => LineParser.Prepend(c, ParseFrom(rest, State([], t == "|", t != "|", false, st.inId)))
      else if IsOut(t) then
        if t == ">" then
          Ok(if rest == [] then [] else [WithInput(RedirectCommand(st.argv, rest[0], st.pipeBefore, st.numberedBefore), st)])
        else
          match Stoi(t[1..])
          case Err(e) => Err(e)
          case Ok(outId) =>
            if rest != [] && '<' in rest[0] then
              match Stoi(rest[0][1..])
              case Err(e) => Err(e)
              case Ok(inId) =>
                LineParser.Prepend(OutCommand(st.(userIn := true, inId := inId), outId), ParseFrom(rest[1..], State([], false, false, false, inId)))
            else
              LineParser.Prepend(OutCommand(st, outId), ParseFrom(rest, State([], false, false, false, st.inId)))
      else if IsIn(t) then
        match Stoi(t[1..])
        case Err(e) => Err(e)
        case Ok(inId) =>
          if rest == [] then Ok([PlainCommand(st.argv, st.pipeBefore, false, st.numberedBefore).(userIn := true, inId := inId)])
          else ParseFrom(rest, st.(userIn := true, inId := inId))
      else if rest == [] then
        // The last word makes a plain command, which forgets an earlier `<n`.
        Ok([PlainCommand(st.argv + [t], st.pipeBefore, false, st.numberedBefore)])
      else
        ParseFrom(rest, st.(argv := st.argv + [t]))
  }

  // `>n` at position i, with a following `<m` if there is one.
  method ToUser(tokens: seq<string>, i: nat, argv: seq<string>, pipeBefore: bool, numberedBefore: bool, userIn: bool, inId: int)
    returns (r: Result<Command>, newInId: int, last: nat)
    requires i < |tokens| && IsOut(tokens[i]) && tokens[i] != ">"
    ensures i <= last < |tokens|
    ensures ParseFrom(tokens[i..], State(argv, pipeBefore, numberedBefore, userIn, inId)) ==
            match r
            case Ok(c) => LineParser.Prepend(c, ParseFrom(tokens[last + 1..], State([], false, false, false, newInId)))
            case Err(e) => Err(e)
  {
    last, newInId := i, inId;
    assert tokens[i..][1..] == tokens[i + 1..];
    var v := Stoi(tokens[i][1..]);
    if v.Err? { return Err(v.error), newInId, last; }
    var outId := v.value;
    var c := PlainCommand(argv, pipeBefore, false, numberedBefore);
    if i < |tokens| - 1 {
      if '<' in tokens[i + 1] {
        assert tokens[i + 1..][1..] == tokens[i + 2..];
        var w := Stoi(tokens[i + 1][1..]);
        if w.Err? { return Err(w.error), newInId, last; }
        newInId := w.value;
        c := c.(inId := newInId, userIn := true);
        last := i + 1;
      }
    }
    if userIn {
      c := c.(inId := newInId, userIn := userIn);
    }
    c := c.(userOut := true, outId := outId);
    r := Ok(c);
  }

  method Parse(tokens: seq<string>) returns (r: Result<seq<Command>>)
    ensures r == ParseFrom(tokens, FRESH)
  {
    hide Stoi;
    var commands: seq<Command> := [];
    var argv: seq<string> := [];
    var pipeBefore, numberedBefore, userIn := false, false, false;
    var inId := 0;
    var n := |tokens|;
    var i := 0;
    assert tokens[0..] == tokens;
    assert forall ds: seq<Command> :: commands + ds == ds;
    while i < n
      invariant 0 <= i <= n
      invariant ParseFrom(tokens, FRESH) ==
                LineParser.PrependAll(commands, ParseFrom(tokens[i..], State(argv, pipeBefore, numberedBefore, userIn, inId)))
    {
      var t := tokens[i];
      ghost var st, before := State(argv, pipeBefore, numberedBefore, userIn, inId), commands;
      assert tokens[i..][1..] == tokens[i + 1..];
      if '|' in t || '!' in t {
        var c;
        if t == "|" {
          c := PlainCommand(argv, pipeBefore, true, numberedBefore);
        } else {
          var v := Stoi(t[1..]);
          if v.Err? { return Err(v.error); }
          c := NumberedCommand(argv, LineParser.Unsigned(v.value), pipeBefore, numberedBefore, '|' !in t);
        }
        if userIn {
          c := c.(userIn := true, inId := inId);
        }
        LineParser.PrependNext(commands, c, ParseFrom(tokens[i + 1..], State([], t == "|", t != "|", false, inId)));
        commands := commands + [c];
        pipeBefore, numberedBefore, userIn, argv := t == "|", t != "|", false, [];
      } else if '>' in t {
        if t == ">" {
          if i == n - 1 {
            assert commands + [] == commands;
            return Ok(commands);
          }
          var c := RedirectCommand(argv, tokens[i + 1], pipeBefore, numberedBefore);
          if userIn {
            c := c.(userIn := true, inId := inId);
          }
          return Ok(commands + [c]);
        }
        var r;
        r, inId, i := ToUser(tokens, i, argv, pipeBefore, numberedBefore, userIn, inId);
        if r.Err? { return Err(r.error); }
        var c := r.value;
        LineParser.PrependNext(commands, c, ParseFrom(tokens[i + 1..], State([], false, false, false, inId)));
        commands := commands + [c];
        pipeBefore, numberedBefore, userIn, argv := false, false, false, [];
      } else if '<' in t {
        var v := Stoi(t[1..]);
        if v.Err? { return Err(v.error); }
        inId, userIn := v.value, true;
        if i == n - 1 {
          return Ok(commands + [PlainCommand(argv, pipeBefore, false, numberedBefore).(userIn := true, inId := inId)]);
        }
      } else if i == n - 1 {
        argv := argv + [t];
        return Ok(commands + [PlainCommand(argv, pipeBefore, false, numberedBefore)]);
      } else {
        argv := argv + [t];
      }
      i := i + 1;
    }
    assert tokens[i..] == [] && commands + [] == commands;
    return Ok(commands);
  }

  // ----- The chain ----------------------------------------------------------------------------------------

  // Each command's "before" flags are its left neighbour's "after" flags, at most one of them is set,
  // a redirection is last, and only a link or a user pipe separates two commands.
  ghost predicate CoherentChain(cs: seq<Command>) {
    forall k :: 0 <= k < |cs| ==>
      && cs[k].pipeBefore == FollowsPipe(cs, k)
      && cs[k].numberedBefore == FollowsNumber(cs, k)
      && !(cs[k].pipeBefore && cs[k].numberedBefore)
      && Fits(cs[k])
      && (k + 1 < |cs| ==> cs[k].pipeAfter || cs[k].numberedAfter || cs[k].userOut)
  }

  // The flags of one command agree with its type.
  predicate Fits(c: Command) {
    && (c.numberedAfter <==> c.kind.NumberedPipe?)
    && (c.pipeAfter ==> c.kind.Pipe?)
    && (c.pipeStderr ==> c.kind.NumberedPipe?)
    && (c.userOut ==> c.kind.Pipe? && !c.pipeAfter)
  }

  ghost predicate Continues(cs: seq<Command>, pipeBefore: bool, numberedBefore: bool) {
    cs != [] ==>
      && cs[0].pipeBefore == pipeBefore && cs[0].numberedBefore == numberedBefore
      && Fits(cs[0])
      && (|cs| > 1 ==> cs[0].pipeAfter || cs[0].numberedAfter || cs[0].userOut)
      && Continues(cs[1..], cs[0].pipeAfter, cs[0].numberedAfter)
  }

  lemma ContinuesPrepend(c: Command, r: Result<seq<Command>>)
    requires Fits(c) && r.Ok? && Continues(r.value, c.pipeAfter, c.numberedAfter)
    requires c.pipeAfter || c.numberedAfter || c.userOut
    ensures Continues([c] + r.value, c.pipeBefore, c.numberedBefore)
  {
    assert ([c] + r.value)[1..] == r.value;
  }

  lemma LinkFits(t: string, st: State)
    requires IsLink(t) && LinkCommand(t, st).Ok?
    ensures var c := LinkCommand(t, st).value;
      && Fits(c) && c.pipeBefore == st.pipeBefore && c.numberedBefore == st.numberedBefore
      && c.pipeAfter == (t == "|") && c.numberedAfter == (t != "|")
  {
    hide Stoi;
  }

  lemma RedirectContinues(file: string, st: State)
    ensures Continues([WithInput(RedirectCommand(st.argv, file, st.pipeBefore, st.numberedBefore), st)], st.pipeBefore, st.numberedBefore)
  {
    var c := WithInput(RedirectCommand(st.argv, file, st.pipeBefore, st.numberedBefore), st);
    assert [c][1..] == [];
  }

  // At most one token left.
  lemma LastContinues(tokens: seq<string>, st: State)
    requires |tokens| <= 1 && ParseFrom(tokens, st).Ok?
    ensures Continues(ParseFrom(tokens, st).value, st.pipeBefore, st.numberedBefore)
  {
    hide Stoi;
    var cs := ParseFrom(tokens, st).value;
    if |tokens| == 1 && IsLink(tokens[0]) { LinkFits(tokens[0], st); }
    assert |cs| <= 1;
    assert |cs| == 1 ==> cs[1..] == [] && Fits(cs[0]);
  }

  lemma {:induction false} ParseContinues(tokens: seq<string>, st: State)
    requires ParseFrom(tokens, st).Ok?
    ensures Continues(ParseFrom(tokens, st).value, st.pipeBefore, st.numberedBefore)
    decreases |tokens|
  {
    hide Stoi, Continues;
    if tokens == [] || |tokens| == 1 {
      LastContinues(tokens, st);
    } else {
      var t, rest := tokens[0], tokens[1..];
      if IsLink(t) {
        var next := State([], t == "|", t != "|", false, st.inId);
        ParseContinues(rest, next);
        LinkFits(t, st);
        ContinuesPrepend(LinkCommand(t, st).value, ParseFrom(rest, next));
      } else if IsOut(t) {
        if t == ">" {
          RedirectContinues(rest[0], st);
        } else {
          var outId := Stoi(t[1..]).value;
          if rest != [] && '<' in rest[0] {
            var inId := Stoi(rest[0][1..]).value;
            var next := State([], false, false, false, inId);
            ParseContinues(rest[1..], next);
            ContinuesPrepend(OutCommand(st.(userIn := true, inId := inId), outId), ParseFrom(rest[1..], next));
          } else {
            var next := State([], false, false, false, st.inId);
            ParseContinues(rest, next);
            ContinuesPrepend(OutCommand(st, outId), ParseFrom(rest, next));
          }
        }
      } else if IsIn(t) {
        ParseContinues(rest, st.(userIn := true, inId := Stoi(t[1..]).value));
      } else {
        ParseContinues(rest, st.(argv := st.argv + [t]));
      }
    }
  }

  lemma {:induction false} ContinuesAt(cs: seq<Command>, pipeBefore: bool, numberedBefore: bool, k: nat)
    requires Continues(cs, pipeBefore, numberedBefore) && k < |cs|
    ensures cs[k].pipeBefore == if k == 0 then pipeBefore else cs[k-1].pipeAfter
    ensures cs[k].numberedBefore == if k == 0 then numberedBefore else cs[k-1].numberedAfter
    ensures Fits(cs[k])
    ensures k > 0 ==> Fits(cs[k-1])
    ensures k + 1 < |cs| ==> cs[k].pipeAfter || cs[k].numberedAfter || cs[k].userOut
  {
    if k > 0 { ContinuesAt(cs[1..], cs[0].pipeAfter, cs[0].numberedAfter, k - 1); }
  }

  // Main result: whatever the tokens, if every number reads, the commands form a coherent chain.
  lemma ParseIsChain(tokens: seq<string>)
    requires ParseFrom(tokens, FRESH).Ok?
    ensures CoherentChain(ParseFrom(tokens, FRESH).value)
  {
    var cs := ParseFrom(tokens, FRESH).value;
    ParseContinues(tokens, FRESH);
    forall k: nat | k < |cs|
      ensures cs[k].pipeBefore == FollowsPipe(cs, k) && cs[k].numberedBefore == FollowsNumber(cs, k)
      ensures !(cs[k].pipeBefore && cs[k].numberedBefore) && Fits(cs[k])
      ensures k + 1 < |cs| ==> cs[k].pipeAfter || cs[k].numberedAfter || cs[k].userOut
    {
      ContinuesAt(cs, false, false, k);
    }
  }

  // ----- Agreement with the shell's parser --------------------------------------------------------------

  // No user pipes: `>` stands alone wherever it occurs, and `<` occurs nowhere.
  predicate NoUserPipes(tokens: seq<string>) {
    forall t :: t in tokens && !IsLink(t) ==> '<' !in t && ('>' in t ==> t == ">")
  }

  // Main result: on lines without user pipes the server reads the same commands as the shell.
  lemma {:induction false} AgreesWithShell(tokens: seq<string>, argv: seq<string>, pipeBefore: bool, numberedBefore: bool, inId: int)
    requires NoUserPipes(tokens)
    ensures ParseFrom(tokens, State(argv, pipeBefore, numberedBefore, false, inId)) ==
            LineParser.ParseFrom(tokens, LineParser.State(argv, pipeBefore, numberedBefore))
    decreases |tokens|
  {
    if tokens == [] {
    } else {
      var t, rest := tokens[0], tokens[1..];
      assert t in tokens;
      if IsLink(t) {
        AgreesWithShell(rest, [], t == "|", t != "|", inId);
      } else if !IsOut(t) && rest != [] {
        AgreesWithShell(rest, argv + [t], pipeBefore, numberedBefore, inId);
      }
    }
  }
}
