/** Whole input lines: which token lists make a runnable command list, how a line splits at `|n`,
    and the shell's read loop. */
module Lines {
  import opened Outcomes
  import opened Commands
  import opened Numbers
  import opened Tokens
  import opened LineParser
  import opened Engine
  import opened Wiring
  import opened Ownership
  import opened ShellProcess

  // ----- Which token lists parse to a runnable line ---------------------------------------------------

  // The executor can run cs: it is not empty and no `|` is left without a right neighbour. `closed`
  // tells whether the same holds of what came before cs.
  predicate Runnable(cs: seq<Command>, closed: bool) {
    if cs == [] then closed else !cs[|cs|-1].pipeAfter
  }

  // The first token that ends parsing.
  function StopAt(tokens: seq<string>): (s: nat)
    ensures s <= |tokens|
    ensures forall i :: 0 <= i < s ==> !IsStop(tokens[i])
    ensures s < |tokens| ==> IsStop(tokens[s])
  {
    if tokens == [] || IsStop(tokens[0]) then 0 else 1 + StopAt(tokens[1..])
  }

  // The last link before position s is a numbered one.
  ghost predicate NumberBefore(tokens: seq<string>, s: nat, closed: bool)
    requires s <= |tokens|
  {
    if s == 0 then closed
    else if IsLink(tokens[s-1]) then tokens[s-1] != "|"
    else NumberBefore(tokens, s - 1, closed)
  }

  // Either there is a redirection with its file, or a dangling `>` whose command is dropped after a
  // numbered pipe, or the line simply does not end in `|`.
  ghost predicate Complete(tokens: seq<string>, closed: bool) {
    var s := StopAt(tokens);
    if s + 1 < |tokens| then true
    else if s + 1 == |tokens| then NumberBefore(tokens, s, closed)
    else if s == 0 then closed
    else tokens[s-1] != "|"
  }

  lemma {:induction false} NumberBeforeTail(tokens: seq<string>, s: nat, closed: bool)
    requires tokens != [] && s < |tokens|
    ensures NumberBefore(tokens, s + 1, closed) ==
            NumberBefore(tokens[1..], s, if IsLink(tokens[0]) then tokens[0] != "|" else closed)
  {
    if s > 0 { NumberBeforeTail(tokens, s - 1, closed); }
  }

  lemma {:induction false} RunnableIffComplete(tokens: seq<string>, st: State, closed: bool)
    requires ParseFrom(tokens, st).Ok?
    ensures Runnable(ParseFrom(tokens, st).value, closed) <==> Complete(tokens, closed)
    decreases |tokens|
  {
    if tokens == [] {
    } else {
      var t, rest := tokens[0], tokens[1..];
      if IsLink(t) {
        var c := LinkCommand(t, st).value;
        var cs := ParseFrom(rest, AfterLink(t)).value;
        RunnableIffComplete(rest, AfterLink(t), t != "|");
        assert Runnable([c] + cs, closed) == Runnable(cs, t != "|");
        if StopAt(rest) + 1 == |rest| { NumberBeforeTail(tokens, StopAt(rest), closed); }
      } else if IsStop(t) {
      } else if |tokens| == 1 {
        assert StopAt(rest) == 0;
      } else {
        RunnableIffComplete(rest, st.(argv := st.argv + [t]), closed);
        if StopAt(rest) + 1 == |rest| { NumberBeforeTail(tokens, StopAt(rest), closed); }
      }
    }
  }

  // The number on every link before the stop points forward.
  ghost predicate Forward(tokens: seq<string>) {
    forall i :: 0 <= i < StopAt(tokens) && IsLink(tokens[i]) && tokens[i] != "|" ==>
      Stoi(tokens[i][1..]).Ok? && Stoi(tokens[i][1..]).value >= 1
  }

  lemma ForwardTail(tokens: seq<string>)
    requires tokens != [] && !IsStop(tokens[0])
    ensures Forward(tokens) <==>
            Forward(tokens[1..]) && (IsLink(tokens[0]) && tokens[0] != "|" ==> Stoi(tokens[0][1..]).Ok? && Stoi(tokens[0][1..]).value >= 1)
  {
    var rest := tokens[1..];
    assert StopAt(tokens) == 1 + StopAt(rest);
    assert forall i :: 0 <= i < StopAt(rest) ==> rest[i] == tokens[i + 1];
    if Forward(rest) {
      forall i | 0 < i < StopAt(tokens) && IsLink(tokens[i]) && tokens[i] != "|"
        ensures Stoi(tokens[i][1..]).Ok? && Stoi(tokens[i][1..]).value >= 1
      {
        assert rest[i - 1] == tokens[i];
      }
    }
  }

  lemma NothingForward()
    ensures Forward([])
  {
  }

  lemma StopForward(tokens: seq<string>)
    requires tokens != [] && IsStop(tokens[0])
    ensures Forward(tokens)
  {
  }

  // Parsing links every command to its neighbours; the numbers are the only thing left to check.
  lemma {:induction false} ParseContinues(tokens: seq<string>, st: State)
    requires ParseFrom(tokens, st).Ok?
    ensures Continues(ParseFrom(tokens, st).value, st)
    ensures (forall c :: c in ParseFrom(tokens, st).value ==> Coherent(c)) <==> Forward(tokens)
    decreases |tokens|
  {
    hide Stoi, Forward, StopAt;
    if tokens == [] {
      NothingForward();
    } else {
      var t, rest := tokens[0], tokens[1..];
      if IsLink(t) {
        var c, cs := LinkCommand(t, st).value, ParseFrom(rest, AfterLink(t)).value;
        ParseContinues(rest, AfterLink(t));
        ForwardTail(tokens);
        StoiRange(t[1..]);
        assert ([c] + cs)[0] == c && ([c] + cs)[1..] == cs;
        assert (forall d :: d in [c] + cs ==> Coherent(d)) <==> Coherent(c) && forall d :: d in cs ==> Coherent(d);
      } else if IsStop(t) {
        StopForward(tokens);
      } else if |tokens| == 1 {
        ForwardTail(tokens);
        NothingForward();
      } else {
        ParseContinues(rest, st.(argv := st.argv + [t]));
        ForwardTail(tokens);
      }
    }
  }

  lemma {:induction false} ContinuesAt(cs: seq<Command>, st: State, k: nat)
    requires Continues(cs, st) && k < |cs|
    ensures cs[k].pipeBefore == if k == 0 then st.pipeBefore else cs[k-1].pipeAfter
    ensures cs[k].numberedBefore == if k == 0 then st.numberedBefore else cs[k-1].numberedAfter
    ensures k + 1 < |cs| ==> cs[k].pipeAfter || cs[k].numberedAfter
  {
    if k > 0 { ContinuesAt(cs[1..], State([], cs[0].pipeAfter, cs[0].numberedAfter), k - 1); }
  }

  // Main result: the executor stays inside its command list, with something to run and numbers that
  // point forward, exactly on the token lists that satisfy these two checks.
  lemma ChainIffComplete(tokens: seq<string>)
    requires ParseFrom(tokens, FRESH).Ok?
    ensures ParseFrom(tokens, FRESH).value != [] && Chain(ParseFrom(tokens, FRESH).value) <==> Complete(tokens, false) && Forward(tokens)
  {
    var cs := ParseFrom(tokens, FRESH).value;
    RunnableIffComplete(tokens, FRESH, false);
    ParseContinues(tokens, FRESH);
    forall k: nat | k < |cs|
      ensures cs[k].pipeBefore == FollowsPipe(cs, k) && cs[k].numberedBefore == FollowsNumber(cs, k)
      ensures k + 1 < |cs| ==> cs[k].pipeAfter || cs[k].numberedAfter
    {
      ContinuesAt(cs, FRESH, k);
    }
    assert forall c :: c in cs <==> exists k :: 0 <= k < |cs| && cs[k] == c;
  }

  // ----- One line or two -------------------------------------------------------------------------------

  // Parsing a line that goes on after a link is parsing up to the link and then the rest.
  lemma {:induction false} ParseConcat(ta: seq<string>, link: string, tb: seq<string>, st: State)
    requires IsLink(link) && forall t :: t in ta ==> !IsStop(t)
    requires ParseFrom(ta + [link], st).Ok?
    ensures ParseFrom(ta + [link] + tb, st) == PrependAll(ParseFrom(ta + [link], st).value, ParseFrom(tb, AfterLink(link)))
    decreases |ta|
  {
    if ta == [] {
      assert ta + [link] == [link] && ([link] + tb)[1..] == tb && ta + [link] + tb == [link] + tb;
      assert [link][1..] == [];
      var c := LinkCommand(link, st).value;
      assert [c] + [] == [c];
    } else {
      var t := ta[0];
      assert t in ta;
      assert (ta + [link])[1..] == ta[1..] + [link];
      assert (ta + [link] + tb)[1..] == ta[1..] + [link] + tb;
      if IsLink(t) {
        ParseConcat(ta[1..], link, tb, AfterLink(t));
        var c := LinkCommand(t, st).value;
        var cs := ParseFrom(ta[1..] + [link], AfterLink(t)).value;
        assert PrependAll([c] + cs, ParseFrom(tb, AfterLink(link))) == Prepend(c, PrependAll(cs, ParseFrom(tb, AfterLink(link)))) by {
          match ParseFrom(tb, AfterLink(link))
          case Ok(ds) => assert [c] + cs + ds == [c] + (cs + ds);
          case Err(_) =>
        }
      } else {
        ParseConcat(ta[1..], link, tb, st.(argv := st.argv + [t]));
      }
    }
  }

  // Whether a numbered pipe came before the line shows only in the first command's flag.
  function MarkFirst(r: Result<seq<Command>>): Result<seq<Command>> {
    match r
    case Ok(cs) => Ok(if cs == [] then [] else [cs[0].(numberedBefore := true)] + cs[1..])
    case Err(e) => Err(e)
  }

  lemma {:induction false} ParseMarked(tokens: seq<string>, argv: seq<string>, pipeBefore: bool)
    ensures ParseFrom(tokens, State(argv, pipeBefore, true)) == MarkFirst(ParseFrom(tokens, State(argv, pipeBefore, false)))
  {
    if tokens == [] {
    } else if IsLink(tokens[0]) {
      var plain := State(argv, pipeBefore, false);
      var rest := ParseFrom(tokens[1..], AfterLink(tokens[0]));
      if LinkCommand(tokens[0], plain).Ok? && rest.Ok? {
        var c := LinkCommand(tokens[0], plain).value;
        assert ([c] + rest.value)[0] == c && ([c] + rest.value)[1..] == rest.value;
      }
    } else if !IsStop(tokens[0]) && |tokens| > 1 {
      ParseMarked(tokens[1..], argv + [tokens[0]], pipeBefore);
    } else {
      var cs := ParseFrom(tokens, State(argv, pipeBefore, false)).value;
      if cs != [] {
        var marked := [cs[0].(numberedBefore := true)];
        assert cs[1..] == [] && marked + [] == marked;
      }
    }
  }

  lemma RunOne(h: Host, s: Session, c: Command)
    ensures Run(h, s, [c]) == Step(h, s, c)
  {
    assert [c][..0] == [];
  }

  lemma MarkedRunsTheSame(h: Host, s: Session, cs: seq<Command>)
    requires cs != []
    ensures Run(h, s, [cs[0].(numberedBefore := true)] + cs[1..]) == Run(h, s, cs)
  {
    hide Step, Launch;
    var first, marked := cs[0], cs[0].(numberedBefore := true);
    RunAppend(h, s, [marked], cs[1..]);
    RunAppend(h, s, [first], cs[1..]);
    assert [first] + cs[1..] == cs;
    RunOne(h, s, first);
    RunOne(h, s, marked);
    StepIgnoresMark(h, s, first);
  }

  // The code tests the flag, but for a command without a neighbour's pipe the test comes out the same.
  lemma StepIgnoresMark(h: Host, s: Session, c: Command)
    ensures Step(h, s, c.(numberedBefore := true)) == Step(h, s, c)
    ensures ReadsNumbered(c.(numberedBefore := true)) == ReadsNumbered(c) <==> !c.pipeBefore || c.numberedBefore
  {
  }

  // ----- The read loop ---------------------------------------------------------------------------------

  // do_build_in_command handles the line itself, whatever comes of it.
  predicate IsBuiltIn(tokens: seq<string>) {
    tokens == [] || tokens[0] == "exit" || tokens[0] == "printenv" || tokens[0] == "setenv"
  }

  predicate IsExit(tokens: seq<string>) {
    tokens != [] && tokens[0] == "exit"
  }

  // The commands that one line runs.
  function CommandsOf(line: string): seq<Command> {
    var tokens := Fields(line, ' ');
    if IsBuiltIn(tokens) then []
    else match ParseFrom(tokens, FRESH) case Ok(cs) => cs case Err(_) => []
  }

  // The commands of a whole input, up to `exit`.
  function AllCommands(lines: seq<string>): seq<Command> {
    if lines == [] || IsExit(Fields(lines[0], ' ')) then []
    else CommandsOf(lines[0]) + AllCommands(lines[1..])
  }

  // A line that the shell can run without running off its own command list.
  ghost predicate WellFormed(line: string) {
    var tokens := Fields(line, ' ');
    IsBuiltIn(tokens) || (ParseFrom(tokens, FRESH).Ok? && Complete(tokens, false) && Forward(tokens))
  }

  // Every number on the line reads.
  predicate Reads(line: string) {
    IsBuiltIn(Fields(line, ' ')) || ParseFrom(Fields(line, ' '), FRESH).Ok?
  }

  // What one line does: a built-in runs nothing, and an empty command list only moves the counter on.
  function LineEffect(h: Host, s: Session, line: string): Session
    requires Reads(line)
  {
    if IsBuiltIn(Fields(line, ' ')) then s
    else if CommandsOf(line) == [] then s.(line := s.line + 1)
    else Run(h, s, CommandsOf(line))
  }

  // The one line is the first one, its last command ending in a number, and then the second.
  lemma OneLineCommands(a: string, link: string, b: string)
    requires ' ' !in link && IsLink(link) && link != "|"
    requires !IsBuiltIn(Fields(a + [' '] + link, ' ')) && ParseFrom(Fields(a + [' '] + link, ' '), FRESH).Ok?
    requires forall t :: t in Fields(a, ' ') ==> !IsStop(t)
    requires ParseFrom(Fields(b, ' '), FRESH).Ok?
    ensures var one, first := a + [' '] + link + [' '] + b, a + [' '] + link;
      && !IsBuiltIn(Fields(one, ' ')) && Reads(one)
      && CommandsOf(first) != [] && CommandsOf(first)[|CommandsOf(first)|-1].numberedAfter
      && CommandsOf(one) == CommandsOf(first) + MarkFirst(ParseFrom(Fields(b, ' '), FRESH)).value
  {
    var ta, tb, first := Fields(a, ' '), Fields(b, ' '), a + [' '] + link;
    FieldsOfWord(link, ' ');
    FieldsConcat(a, link, ' ');
    FieldsConcat(first, b, ' ');
    assert Fields(first + [' '] + b, ' ') == ta + [link] + tb;
    assert (ta + [link])[0] == (ta + [link] + tb)[0];
    ParseConcat(ta, link, tb, FRESH);
    ParseMarked(tb, [], false);
    LinkMakesCommand(ta, link, FRESH);
  }

  lemma {:induction false} LinkMakesCommand(ta: seq<string>, link: string, st: State)
    requires IsLink(link) && link != "|" && (forall t :: t in ta ==> !IsStop(t)) && ParseFrom(ta + [link], st).Ok?
    ensures var cs := ParseFrom(ta + [link], st).value; cs != [] && cs[|cs|-1].numberedAfter
  {
    if ta == [] {
      assert ta + [link] == [link] && [link][1..] == [];
    } else {
      assert ta[0] in ta;
      assert (ta + [link])[1..] == ta[1..] + [link];
      LinkMakesCommand(ta[1..], link, if IsLink(ta[0]) then AfterLink(ta[0]) else st.(argv := st.argv + [ta[0]]));
    }
  }

  // Main result: `a |n b` as one line is `a |n` and `b` as two, for every process launched, every
  // pending pipe and the line count, if and only if b is blank or makes a command. A b that is only a
  // dangling redirection disappears from the one line, but is counted as a line of its own.
  lemma OneLineIsTwoLines(h: Host, s: Session, a: string, link: string, b: string)
    requires ' ' !in link && IsLink(link) && link != "|"
    requires !IsBuiltIn(Fields(a + [' '] + link, ' ')) && WellFormed(a + [' '] + link)
    requires !IsBuiltIn(Fields(b, ' ')) || Fields(b, ' ') == []
    requires forall t :: t in Fields(a, ' ') ==> !IsStop(t)
    requires WellFormed(b) || (Reads(b) && CommandsOf(b) == [])
    ensures Reads(a + [' '] + link + [' '] + b) && Reads(b)
    ensures LineEffect(h, s, a + [' '] + link + [' '] + b) == LineEffect(h, LineEffect(h, s, a + [' '] + link), b)
      <==> Fields(b, ' ') == [] || ParseFrom(Fields(b, ' '), FRESH).value != []
  {
    var first := a + [' '] + link;
    OneLineCommands(a, link, b);
    var left, right := CommandsOf(first), ParseFrom(Fields(b, ' '), FRESH).value;
    var marked := MarkFirst(Ok(right)).value;
    RunAppend(h, s, left, marked);
    if right != [] { MarkedRunsTheSame(h, Run(h, s, left), right); }
    assert CommandsOf(b) == right;
    assert left + [] == left;
  }

  const TO_NEXT := ["a", "|1"]

  lemma ToNextFields()
    ensures Fields("a |1", ' ') == TO_NEXT && Fields(">", ' ') == [">"]
  {
    hide Fields;
    assert TO_NEXT[1..] == ["|1"];
    assert Join(["|1"], ' ') == "|1";
    assert Join(TO_NEXT, ' ') == "a" + [' '] + "|1" == "a |1";
    FieldsOfJoin(TO_NEXT, ' ');
    FieldsOfWord(">", ' ');
  }

  lemma ToNextParses()
    ensures ParseFrom(TO_NEXT, FRESH) == Ok([NumberedCommand(["a"], 1, false, false, false)])
  {
    var c, mid := NumberedCommand(["a"], 1, false, false, false), State(["a"], false, false);
    StoiOfToString(1);
    assert "|1"[1..] == "1" == ToString(1);
    hide Stoi, ToString;
    assert "|1"[0] == '|' && |"|1"| == 2;
    assert LinkCommand("|1", mid) == Ok(c);
    assert ParseFrom([], AfterLink("|1")) == Ok([]) && [c] + [] == [c];
    assert TO_NEXT[1..] == ["|1"] && ["|1"][1..] == [];
    assert ParseFrom(["|1"], mid) == Ok([c]);
    assert !IsLink("a") && !IsStop("a") && [] + ["a"] == ["a"];
  }

  // The skipped pipe is within reach: after `a |1` a pipe is due, and `>` alone makes no command.
  lemma DuePipeCanBeSkipped(h: Host)
    ensures WellFormed("a |1") && Reads(">") && !IsBuiltIn(Fields(">", ' ')) && CommandsOf(">") == []
    ensures var s := LineEffect(h, START, "a |1");
      s.line in s.pending && LineEffect(h, s, ">") == s.(line := s.line + 1)
  {
    hide Fields, Run, Complete, Forward;
    ToNextFields();
    ToNextParses();
    var c := NumberedCommand(["a"], 1, false, false, false);
    assert ParseFrom([">"], FRESH) == Ok([]);
    hide ParseFrom;
    RunOne(h, START, c);
    ChainIffComplete(TO_NEXT);
  }

  // The one line is fit to run whenever the two are.
  lemma OneLineIsWellFormed(a: string, link: string, b: string)
    requires ' ' !in link && IsLink(link) && link != "|"
    requires !IsBuiltIn(Fields(a + [' '] + link, ' ')) && WellFormed(a + [' '] + link)
    requires !IsBuiltIn(Fields(b, ' ')) || Fields(b, ' ') == []
    requires forall t :: t in Fields(a, ' ') ==> !IsStop(t)
    requires WellFormed(b)
    ensures WellFormed(a + [' '] + link + [' '] + b)
  {
    OneLineCommands(a, link, b);
    WellFormedIsChain(a + [' '] + link);
    WellFormedIsChain(b);
    if CommandsOf(b) != [] { MarkedIsChain(CommandsOf(a + [' '] + link), CommandsOf(b)); }
    assert CommandsOf(a + [' '] + link) + [] == CommandsOf(a + [' '] + link);
    ChainIffComplete(Fields(a + [' '] + link + [' '] + b, ' '));
  }

  // A chain stays one when its first command comes to stand after a numbered pipe.
  lemma MarkedIsChain(a: seq<Command>, b: seq<Command>)
    requires Chain(a) && Chain(b) && a != [] && a[|a|-1].numberedAfter && b != []
    ensures Chain(a + MarkFirst(Ok(b)).value)
  {
    var marked := MarkFirst(Ok(b)).value;
    assert |marked| == |b| && marked[0] == b[0].(numberedBefore := true);
    assert forall j :: 0 < j < |b| ==> marked[j] == b[j];
    hide MarkFirst;
    assert Coherent(a[|a|-1]);
    assert Coherent(b[0]) && b[0].pipeBefore == FollowsPipe(b, 0);
    ChainsJoin(a, b, marked);
  }

  lemma ChainsJoin(a: seq<Command>, b: seq<Command>, marked: seq<Command>)
    requires Chain(a) && Chain(b) && a != [] && a[|a|-1].numberedAfter && !a[|a|-1].pipeAfter
    requires |marked| == |b| && b != [] && !b[0].pipeBefore && marked[0] == b[0].(numberedBefore := true)
    requires forall j :: 0 < j < |b| ==> marked[j] == b[j]
    ensures Chain(a + marked)
  {
    var cs, n := a + marked, |a|;
    forall k: nat | k < |cs|
      ensures Coherent(cs[k]) && cs[k].pipeBefore == FollowsPipe(cs, k) && cs[k].numberedBefore == FollowsNumber(cs, k)
      ensures k < |cs| - 1 ==> cs[k].pipeAfter || cs[k].numberedAfter
    {
      if k < n {
        assert a[k].pipeBefore == FollowsPipe(a, k) && a[k].numberedBefore == FollowsNumber(a, k);
      } else if k == n {
        assert cs[k] == marked[0] && cs[k-1] == a[n-1];
        assert Coherent(b[0]);
      } else {
        assert cs[k] == b[k-n] && cs[k-1] == marked[k-n-1];
        assert b[k-n].pipeBefore == FollowsPipe(b, k - n) && b[k-n].numberedBefore == FollowsNumber(b, k - n);
      }
    }
  }

  lemma WellFormedIsChain(line: string)
    requires WellFormed(line)
    ensures Chain(CommandsOf(line))
    ensures !IsBuiltIn(Fields(line, ' ')) ==> CommandsOf(line) != []
  {
    if !IsBuiltIn(Fields(line, ' ')) { ChainIffComplete(Fields(line, ' ')); }
  }

  lemma WellFormedEffect(h: Host, s: Session, line: string)
    requires WellFormed(line)
    ensures LineEffect(h, s, line) == Run(h, s, CommandsOf(line))
  {
    WellFormedIsChain(line);
  }

  lemma RunNothing(h: Host, s: Session)
    ensures Run(h, s, []) == s
  {
  }

  // The shell runs the line as it is meant: its numbers read, the executor stays inside the command
  // list, and an empty list passes no pipe that is due.
  predicate LineFits(s: Session, line: string) {
    && Reads(line)
    && (IsBuiltIn(Fields(line, ' ')) || (Chain(CommandsOf(line)) && (CommandsOf(line) == [] ==> s.line !in s.pending)))
  }

  // Line after line, up to `exit`.
  predicate InputFits(h: Host, s: Session, lines: seq<string>)
    decreases |lines|
  {
    lines == [] || IsExit(Fields(lines[0], ' ')) ||
    (LineFits(s, lines[0]) && InputFits(h, LineEffect(h, s, lines[0]), lines[1..]))
  }

  function InputEffect(h: Host, s: Session, lines: seq<string>): Session
    requires InputFits(h, s, lines)
    decreases |lines|
  {
    if lines == [] || IsExit(Fields(lines[0], ' ')) then s
    else InputEffect(h, LineEffect(h, s, lines[0]), lines[1..])
  }

  // The commands of lines that fit form one linked sequence.
  lemma {:induction false} AllCommandsLinked(h: Host, s: Session, lines: seq<string>)
    requires InputFits(h, s, lines)
    ensures Linked(AllCommands(lines))
    decreases |lines|
  {
    if lines == [] || IsExit(Fields(lines[0], ' ')) {
    } else {
      AllCommandsLinked(h, LineEffect(h, s, lines[0]), lines[1..]);
      LinkedConcat(CommandsOf(lines[0]), AllCommands(lines[1..]));
    }
  }

  // The line at which the next input line begins.
  function LineAfter(line: string, at: nat): nat {
    var cs := CommandsOf(line);
    if IsBuiltIn(Fields(line, ' ')) then at else if cs == [] then at + 1 else at + LineOf(cs, |cs|)
  }

  // The lines at which the commands of the whole input run.
  function InputLines(lines: seq<string>, at: nat): seq<nat>
    decreases |lines|
  {
    if lines == [] || IsExit(Fields(lines[0], ' ')) then []
    else LinesOf(CommandsOf(lines[0]), at) + InputLines(lines[1..], LineAfter(lines[0], at))
  }

  // One more input line keeps everything exact.
  lemma LineKept(h: Host, before: seq<Command>, at: seq<nat>, s: Session, line: string)
    requires NoPipes(h) && Kept(h, before, at, s) && Linked(before) && s.left == None && LineFits(s, line)
    ensures var t, cs := LineEffect(h, s, line), CommandsOf(line);
      && Linked(before + cs) && t.left == None && t.line == LineAfter(line, s.line)
      && Kept(h, before + cs, at + LinesOf(cs, s.line), t)
  {
    FitsIsChain(s, line);
    FitsEffect(h, s, line);
    hide *;
    var cs := CommandsOf(line);
    if cs == [] {
      NothingAdded(before, at, s.line);
      if s.line !in s.pending { CounterKept(h, before, at, s); }
    } else {
      CommandsKept(h, before, at, s, cs);
    }
  }

  // What a line that fits does to the session and to the line count.
  lemma FitsEffect(h: Host, s: Session, line: string)
    requires LineFits(s, line)
    ensures var t, cs := LineEffect(h, s, line), CommandsOf(line);
      if cs != [] then t == Run(h, s, cs) && LineAfter(line, s.line) == s.line + LineOf(cs, |cs|)
      else (t == s && LineAfter(line, s.line) == s.line) ||
           (t == s.(line := s.line + 1) && s.line !in s.pending && LineAfter(line, s.line) == s.line + 1)
  {
    hide Fields, ParseFrom, Run, LineOf, Linked;
  }

  lemma NothingAdded(before: seq<Command>, at: seq<nat>, first: nat)
    ensures before + [] == before && at + LinesOf([], first) == at
  {
  }

  // A line that only moves the counter on.
  lemma CounterKept(h: Host, before: seq<Command>, at: seq<nat>, s: Session)
    requires Kept(h, before, at, s) && s.left == None && s.line !in s.pending
    ensures Kept(h, before, at, s.(line := s.line + 1))
  {
    hide Kept, Tracks;
    KeptTracks(h, before, at, s);
    NothingPassed(h, before, at, s);
    MoveKept(h, before, at, s, s.line + 1);
  }

  lemma CommandsKept(h: Host, before: seq<Command>, at: seq<nat>, s: Session, cs: seq<Command>)
    requires NoPipes(h) && Kept(h, before, at, s) && Linked(before) && s.left == None
    requires cs != [] && Linked(cs) && !MidLine(cs)
    ensures var t := Run(h, s, cs);
      && Linked(before + cs) && t.left == None && t.line == s.line + LineOf(cs, |cs|)
      && Kept(h, before + cs, at + LinesOf(cs, s.line), t)
  {
    hide Kept, Tracks, Linked, Run, LinesOf, LineOf, NoPipes;
    KeptTracks(h, before, at, s);
    NothingPassed(h, before, at, s);
    LinkedConcat(before, cs);
    RunOnKept(h, before, at, s, cs);
    RunOnTracks(h, before, at, s, cs);
    assert (before + cs)[|before + cs| - 1] == cs[|cs|-1];
    NothingPassed(h, before + cs, at + LinesOf(cs, s.line), Run(h, s, cs));
  }

  lemma FitsIsChain(s: Session, line: string)
    requires LineFits(s, line)
    ensures Linked(CommandsOf(line)) && !MidLine(CommandsOf(line))
    ensures IsBuiltIn(Fields(line, ' ')) ==> CommandsOf(line) == []
  {
  }

  lemma {:induction false} InputKept(h: Host, before: seq<Command>, at: seq<nat>, s: Session, lines: seq<string>)
    requires NoPipes(h) && Kept(h, before, at, s) && Linked(before) && s.left == None && InputFits(h, s, lines)
    ensures Kept(h, before + AllCommands(lines), at + InputLines(lines, s.line), InputEffect(h, s, lines))
    decreases |lines|
  {
    hide Kept, Linked, NoPipes, CommandsOf, LineAfter, LineEffect, Fields;
    if lines == [] || IsExit(Fields(lines[0], ' ')) {
      assert before + [] == before && at + [] == at;
    } else {
      var cs, t := CommandsOf(lines[0]), LineEffect(h, s, lines[0]);
      assert LineFits(s, lines[0]);
      hide LineFits;
      LineKept(h, before, at, s, lines[0]);
      InputKept(h, before + cs, at + LinesOf(cs, s.line), t, lines[1..]);
      var rest, more := AllCommands(lines[1..]), InputLines(lines[1..], t.line);
      assert before + cs + rest == before + (cs + rest);
      assert at + LinesOf(cs, s.line) + more == at + (LinesOf(cs, s.line) + more);
    }
  }

  // Main result: whatever lines the user types that fit, the processes are wired as the lines say, and
  // every ordinary pipe whose reader was launched is private to its two commands.
  lemma InputIsWired(h: Host, lines: seq<string>)
    requires NoPipes(h) && InputFits(h, START, lines)
    ensures var cs, s := AllCommands(lines), InputEffect(h, START, lines);
      Wired(h, cs, InputLines(lines, 0), s.procs) && AllPrivate(cs, s)
  {
    StartTracks(h);
    InputKept(h, [], [], START, lines);
    assert [] + AllCommands(lines) == AllCommands(lines) && [] + InputLines(lines, 0) == InputLines(lines, 0);
  }

  // On well-formed lines this is the run of all their commands.
  lemma {:induction false} WellFormedInput(h: Host, s: Session, lines: seq<string>)
    requires forall l :: l in lines ==> WellFormed(l)
    ensures InputFits(h, s, lines) && InputEffect(h, s, lines) == Run(h, s, AllCommands(lines))
    decreases |lines|
  {
    if lines == [] || IsExit(Fields(lines[0], ' ')) {
      RunNothing(h, s);
    } else {
      assert lines[0] in lines;
      var rest := lines[1..];
      assert forall l :: l in rest ==> l in lines;
      WellFormedFits(s, lines[0]);
      WellFormedEffect(h, s, lines[0]);
      WellFormedInput(h, Run(h, s, CommandsOf(lines[0])), rest);
      RunAppend(h, s, CommandsOf(lines[0]), AllCommands(rest));
    }
  }

  lemma WellFormedFits(s: Session, line: string)
    requires WellFormed(line)
    ensures LineFits(s, line)
  {
    WellFormedIsChain(line);
  }

  // A line that is no built-in is parsed and executed.
  method RunLine(shell: Shell, ghost line: string, tokens: seq<string>)
    requires shell.Valid() && tokens == Fields(line, ' ') && LineFits(shell.session, line) && !IsBuiltIn(tokens)
    modifies shell, shell.process
    ensures shell.Valid()
    ensures shell.session == LineEffect(shell.TheHost(), old(shell.session), line)
  {
    hide Run, ParseFrom, Fields, Shell.Valid;
    var commands := Parse(tokens);
    shell.ExecuteCommands(commands.value);
  }

  // np_shell: read, split, try the built-ins, parse, execute.
  method NpShell(shell: Shell, lines: seq<string>)
    requires shell.Valid() && InputFits(shell.TheHost(), shell.session, lines)
    modifies shell, shell.process
    ensures shell.Valid()
    ensures shell.session == InputEffect(shell.TheHost(), old(shell.session), lines)
  {
    hide Run, Fields, LineFits, Shell.Valid;
    ghost var h, s0 := shell.TheHost(), shell.session;
    var i := 0;
    assert lines[0..] == lines;
    while i < |lines|
      invariant 0 <= i <= |lines| && shell.Valid()
      invariant InputFits(h, shell.session, lines[i..]) && InputEffect(h, shell.session, lines[i..]) == InputEffect(h, s0, lines)
    {
      assert lines[i..][0] == lines[i] && lines[i..][1..] == lines[i + 1..];
      var tokens := Split(lines[i], ' ');
      if IsExit(tokens) { return; }
      if !IsBuiltIn(tokens) {
        RunLine(shell, lines[i], tokens);
      }
      i := i + 1;
    }
  }
}
