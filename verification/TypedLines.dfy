/** Typed lines: `|n` at the end of one line feeds the line that is typed n lines later. */
module TypedLines {
  import opened Commands
  import opened Engine
  import opened Lines
  import LineParser
  import Ownership
  import opened Tokens

  // A command list written out as a line is run as that list, unless its first word is one of the shell's
  // own three.
  lemma PrintedLineRuns(cs: seq<Command>)
    requires Chain(cs) && (forall c :: c in cs ==> LineParser.Expressible(c)) && LineParser.PrintCommands(cs) != []
    requires LineParser.PrintCommands(cs)[0] !in {"exit", "printenv", "setenv"}
    ensures CommandsOf(Join(LineParser.PrintCommands(cs), ' ')) == cs
  {
    LineParser.RoundTrip(cs);
    LineParser.PrintedTokensAreFields(cs);
    FieldsOfJoin(LineParser.PrintCommands(cs), ' ');
  }

  // A line that begins with one of them, and a blank one, runs nothing; only `exit` ends the input.
  lemma OwnWordsRunNothing(h: Host, s: Session, line: string, rest: seq<string>)
    requires var ws := Fields(line, ' '); ws == [] || ws[0] in {"exit", "printenv", "setenv"}
    ensures LineEffect(h, s, line) == s && CommandsOf(line) == []
    ensures var ws := Fields(line, ' ');
      InputFits(h, s, [line] + rest) ==>
        if ws != [] && ws[0] == "exit" then InputEffect(h, s, [line] + rest) == s && AllCommands([line] + rest) == []
        else InputFits(h, s, rest) && InputEffect(h, s, [line] + rest) == InputEffect(h, s, rest)
             && AllCommands([line] + rest) == AllCommands(rest)
  {
    hide Fields;
    assert ([line] + rest)[1..] == rest;
  }

  // The line is no built-in and makes commands, all but the last ending in `|`: it counts as one.
  predicate SingleLine(line: string) {
    var cs := CommandsOf(line);
    !IsBuiltIn(Fields(line, ' ')) && cs != [] && !cs[|cs|-1].pipeAfter && forall k :: 0 <= k < |cs| - 1 ==> cs[k].pipeAfter
  }

  // The line ends in `|n` or `!n`.
  predicate EndsInNumber(line: string, n: nat) {
    var cs := CommandsOf(line);
    SingleLine(line) && cs[|cs|-1].kind.NumberedPipe? && cs[|cs|-1].pipeNumber == n
  }

  // The number of commands in the first i lines, and the line count before line i.
  function Before(lines: seq<string>, i: nat): nat
    requires i <= |lines|
  {
    |AllCommands(lines[..i])|
  }

  function LineAt(lines: seq<string>, i: nat, first: nat): nat
    requires i <= |lines|
    decreases i
  {
    if i == 0 then first else LineAt(lines[1..], i - 1, LineAfter(lines[0], first))
  }

  lemma {:induction false} LineOfBars(cs: seq<Command>, k: nat)
    requires k <= |cs| && forall j :: 0 <= j < k ==> cs[j].pipeAfter
    ensures LineOf(cs, k) == 0
  {
    if k > 0 { LineOfBars(cs, k - 1); }
  }

  // A single line counts as one, and its commands all run at its own line.
  lemma SingleLineCounts(line: string, at: nat)
    requires SingleLine(line)
    ensures LineAfter(line, at) == at + 1 && CommandsOf(line) != []
    ensures var cs := CommandsOf(line); LinesOf(cs, at)[0] == at && LinesOf(cs, at)[|cs|-1] == at
  {
    var cs := CommandsOf(line);
    LineOfBars(cs, |cs| - 1);
    LineOfBars(cs, 0);
    Ownership.LinesOfAt(cs, at, 0);
    Ownership.LinesOfAt(cs, at, |cs| - 1);
  }

  // The input splits at any line.
  lemma {:induction false} CommandsSplit(lines: seq<string>, i: nat)
    requires i <= |lines| && forall j :: 0 <= j < i ==> !IsExit(Fields(lines[j], ' '))
    ensures AllCommands(lines) == AllCommands(lines[..i]) + AllCommands(lines[i..])
    decreases i
  {
    hide CommandsOf, Fields;
    if i == 0 {
      assert lines[..0] == [] && lines[0..] == lines && [] + AllCommands(lines) == AllCommands(lines);
    } else {
      var rest, cs := lines[1..], CommandsOf(lines[0]);
      assert !IsExit(Fields(lines[0], ' '));
      CommandsSplit(rest, i - 1);
      assert lines[..i][0] == lines[0] && lines[..i][1..] == rest[..i - 1] && rest[i - 1..] == lines[i..];
      assert cs + (AllCommands(rest[..i - 1]) + AllCommands(lines[i..])) == cs + AllCommands(rest[..i - 1]) + AllCommands(lines[i..]);
    }
  }

  lemma {:induction false} LinesSplit(lines: seq<string>, i: nat, first: nat)
    requires i <= |lines| && forall j :: 0 <= j < i ==> !IsExit(Fields(lines[j], ' '))
    ensures InputLines(lines, first) == InputLines(lines[..i], first) + InputLines(lines[i..], LineAt(lines, i, first))
    decreases i
  {
    hide CommandsOf, LineAfter, Fields;
    if i == 0 {
      assert lines[..0] == [] && lines[0..] == lines && [] + InputLines(lines, first) == InputLines(lines, first);
    } else {
      var rest, at, next := lines[1..], LinesOf(CommandsOf(lines[0]), first), LineAfter(lines[0], first);
      assert !IsExit(Fields(lines[0], ' '));
      LinesSplit(rest, i - 1, next);
      assert lines[..i][0] == lines[0] && lines[..i][1..] == rest[..i - 1] && rest[i - 1..] == lines[i..];
      var more, tail := InputLines(rest[..i - 1], next), InputLines(lines[i..], LineAt(lines, i, first));
      assert at + (more + tail) == at + more + tail;
    }
  }

  // Where the commands of line i stand, and the lines they run at.
  lemma CommandsAt(lines: seq<string>, i: nat)
    requires i < |lines| && forall j :: 0 <= j <= i ==> !IsExit(Fields(lines[j], ' '))
    ensures var cs, from := CommandsOf(lines[i]), Before(lines, i);
      && from + |cs| <= |AllCommands(lines)| == |InputLines(lines, 0)|
      && AllCommands(lines)[from..from + |cs|] == cs
      && InputLines(lines, 0)[from..from + |cs|] == LinesOf(cs, LineAt(lines, i, 0))
  {
    hide *;
    var tail, at := lines[i..], LineAt(lines, i, 0);
    assert !IsExit(Fields(lines[i], ' '));
    assert tail[0] == lines[i] && tail[1..] == lines[i + 1..];
    CommandsSplit(lines, i);
    LinesSplit(lines, i, 0);
    InputCounts(lines, 0);
    InputCounts(lines[..i], 0);
    FirstLine(tail, at);
    BeforeIs(lines, i);
    Located(AllCommands(lines), AllCommands(lines[..i]), CommandsOf(tail[0]), AllCommands(tail[1..]));
    Located(InputLines(lines, 0), InputLines(lines[..i], 0), LinesOf(CommandsOf(tail[0]), at), InputLines(tail[1..], LineAfter(tail[0], at)));
  }

  lemma Located<T>(all: seq<T>, a: seq<T>, m: seq<T>, b: seq<T>)
    requires all == a + (m + b)
    ensures |a| + |m| <= |all| && all[|a|..|a| + |m|] == m
  {
  }

  lemma FirstLine(lines: seq<string>, first: nat)
    requires lines != [] && !IsExit(Fields(lines[0], ' '))
    ensures AllCommands(lines) == CommandsOf(lines[0]) + AllCommands(lines[1..])
    ensures InputLines(lines, first) == LinesOf(CommandsOf(lines[0]), first) + InputLines(lines[1..], LineAfter(lines[0], first))
  {
    hide CommandsOf, LineAfter, Fields;
  }

  lemma BeforeIs(lines: seq<string>, i: nat)
    requires i <= |lines|
    ensures Before(lines, i) == |AllCommands(lines[..i])|
  {
  }

  lemma {:induction false} InputCounts(lines: seq<string>, first: nat)
    ensures |InputLines(lines, first)| == |AllCommands(lines)|
  {
    hide CommandsOf, LineAfter, Fields;
    if lines != [] { InputCounts(lines[1..], LineAfter(lines[0], first)); }
  }

  lemma {:induction false} LineAtSnoc(lines: seq<string>, i: nat, first: nat)
    requires i < |lines|
    ensures LineAt(lines, i + 1, first) == LineAfter(lines[i], LineAt(lines, i, first))
    decreases i
  {
    if i > 0 { LineAtSnoc(lines[1..], i - 1, LineAfter(lines[0], first)); }
  }

  lemma {:induction false} SinglesCount(lines: seq<string>, i: nat, n: nat)
    requires i + n <= |lines| && forall j :: i <= j < i + n ==> SingleLine(lines[j])
    ensures LineAt(lines, i + n, 0) == LineAt(lines, i, 0) + n
    decreases n
  {
    if n > 0 {
      SinglesCount(lines, i, n - 1);
      LineAtSnoc(lines, i + n - 1, 0);
      SingleLineCounts(lines[i + n - 1], LineAt(lines, i + n - 1, 0));
    }
  }

  lemma OneMoreLine(lines: seq<string>, i: nat)
    requires i < |lines| && forall j :: 0 <= j <= i ==> !IsExit(Fields(lines[j], ' '))
    ensures Before(lines, i + 1) == Before(lines, i) + |CommandsOf(lines[i])|
  {
    var some := lines[..i + 1];
    assert some[..i] == lines[..i] && some[i..] == [lines[i]];
    CommandsSplit(some, i);
    assert [lines[i]][1..] == [];
  }

  lemma {:induction false} BeforeGrows(lines: seq<string>, i: nat, j: nat)
    requires i <= j <= |lines| && forall k :: 0 <= k < j ==> !IsExit(Fields(lines[k], ' '))
    ensures Before(lines, i) <= Before(lines, j)
    decreases j
  {
    if i < j {
      OneMoreLine(lines, j - 1);
      BeforeGrows(lines, i, j - 1);
    }
  }

  // The last command of a single line.
  lemma LastAt(lines: seq<string>, i: nat)
    requires i < |lines| && SingleLine(lines[i]) && forall j :: 0 <= j <= i ==> !IsExit(Fields(lines[j], ' '))
    ensures var cs, k := CommandsOf(lines[i]), Before(lines, i + 1) - 1;
      && 0 <= k < |AllCommands(lines)| == |InputLines(lines, 0)|
      && AllCommands(lines)[k] == cs[|cs|-1] && InputLines(lines, 0)[k] == LineAt(lines, i, 0)
  {
    hide *;
    var cs, from := CommandsOf(lines[i]), Before(lines, i);
    CommandsAt(lines, i);
    OneMoreLine(lines, i);
    SingleLineCounts(lines[i], LineAt(lines, i, 0));
    LastOf(AllCommands(lines), from, cs);
    LastOf(InputLines(lines, 0), from, LinesOf(cs, LineAt(lines, i, 0)));
  }

  lemma LastOf<T>(all: seq<T>, from: nat, m: seq<T>)
    requires m != [] && from + |m| <= |all| && all[from..from + |m|] == m
    ensures all[from + |m| - 1] == m[|m|-1]
  {
  }

  // The first command of a line.
  lemma FirstAt(lines: seq<string>, i: nat)
    requires i < |lines| && CommandsOf(lines[i]) != [] && forall j :: 0 <= j <= i ==> !IsExit(Fields(lines[j], ' '))
    ensures var k := Before(lines, i);
      && k < |AllCommands(lines)| == |InputLines(lines, 0)|
      && AllCommands(lines)[k] == CommandsOf(lines[i])[0] && InputLines(lines, 0)[k] == LineAt(lines, i, 0)
  {
    CommandsAt(lines, i);
    var cs, from := CommandsOf(lines[i]), Before(lines, i);
    Ownership.LinesOfAt(cs, LineAt(lines, i, 0), 0);
    LineOfBars(cs, 0);
    assert AllCommands(lines)[from..from + |cs|][0] == AllCommands(lines)[from];
    assert InputLines(lines, 0)[from..from + |cs|][0] == InputLines(lines, 0)[from];
  }

  // Main result, in typed lines: if line i ends in `|n` and it and the next n - 1 lines count as one each,
  // then the first command typed on line i + n reads the pipe that the last command of line i writes.
  lemma NumberFeedsLine(h: Host, lines: seq<string>, i: nat, n: nat)
    requires NoPipes(h) && InputFits(h, START, lines) && n >= 1 && i + n < |lines|
    requires forall j :: 0 <= j <= i + n ==> !IsExit(Fields(lines[j], ' '))
    requires EndsInNumber(lines[i], n) && forall j :: i <= j < i + n ==> SingleLine(lines[j])
    requires CommandsOf(lines[i + n]) != [] && !CommandsOf(lines[i + n])[0].pipeBefore
    ensures var ps, writer, reader := InputEffect(h, START, lines).procs, Before(lines, i + 1) - 1, Before(lines, i + n);
      && 0 <= writer < reader < |ps|
      && ps[writer].stdout.WriteEnd? && ps[reader].stdin == ReadEnd(ps[writer].stdout.pipe)
  {
    hide AllCommands, InputLines, InputFits, InputEffect, LineAt, Before, Wired, NoPipes, LineAfter, CommandsOf, Fields;
    InputIsWired(h, lines);
    var cs, at, ps := AllCommands(lines), InputLines(lines, 0), InputEffect(h, START, lines).procs;
    var writer, reader := Before(lines, i + 1) - 1, Before(lines, i + n);
    LastAt(lines, i);
    LastAt(lines, i + n - 1);
    FirstAt(lines, i + n);
    SinglesCount(lines, i, n - 1);
    SinglesCount(lines, i, n);
    BeforeGrows(lines, i + 1, i + n);
    hide *;
    ReadsFrom(h, cs, at, ps, writer, reader);
  }

  // A command that names the line of a later one, which opens that line, feeds it.
  lemma ReadsFrom(h: Host, cs: seq<Command>, at: seq<nat>, ps: seq<Proc>, writer: nat, reader: nat)
    requires Wired(h, cs, at, ps) && writer < reader < |cs|
    requires cs[writer].kind.NumberedPipe? && at[writer] + cs[writer].pipeNumber == at[reader]
    requires !cs[reader].pipeBefore && at[reader - 1] < at[reader]
    ensures ps[writer].stdout.WriteEnd? && ps[reader].stdin == ReadEnd(ps[writer].stdout.pipe)
  {
    assert Feeds(cs, at, writer, reader);
    assert WiredIn(h, cs, at, ps, reader);
  }
}
