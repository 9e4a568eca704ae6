/** A parsed command, the record that the parsers build and the executors read. */
module Commands {
  // Numbers read from `|n` and `!n` fit a 32-bit signed integer before they are stored unsigned.
  const INT_MAX := 0x7FFF_FFFF

  // The value that a 32-bit unsigned integer keeps of x.
  function Wrap(x: nat): (r: nat)
    ensures r < 0x1_0000_0000
  {
    x % 0x1_0000_0000
  }

  datatype Kind = Pipe | NumberedPipe | Redirect

  datatype Command = Command(
    kind: Kind,
    argv: seq<string>,
    fileName: string,
    pipeNumber: nat,
    pipeBefore: bool,
    pipeAfter: bool,
    numberedBefore: bool,
    numberedAfter: bool,
    pipeStderr: bool,
    userIn: bool,
    inId: int,
    userOut: bool,
    outId: int)

  function PlainCommand(argv: seq<string>, pipeBefore: bool, pipeAfter: bool, numberedBefore: bool): Command {
    Command(Pipe, argv, "", 0, pipeBefore, pipeAfter, numberedBefore, false, false, false, 0, false, 0)
  }

  function NumberedCommand(argv: seq<string>, n: nat, pipeBefore: bool, numberedBefore: bool, pipeStderr: bool): Command {
    Command(NumberedPipe, argv, "", n, pipeBefore, false, numberedBefore, true, pipeStderr, false, 0, false, 0)
  }

  function RedirectCommand(argv: seq<string>, file: string, pipeBefore: bool, numberedBefore: bool): Command {
    Command(Redirect, argv, file, 0, pipeBefore, false, numberedBefore, false, false, false, 0, false, 0)
  }

  // The flags agree with the kind, and a numbered pipe points forward.
  predicate Coherent(c: Command) {
    && (c.numberedAfter <==> c.kind.NumberedPipe?)
    && (c.pipeAfter ==> c.kind.Pipe?)
    && (c.pipeStderr ==> c.kind.NumberedPipe?)
    && (c.kind.NumberedPipe? ==> 1 <= c.pipeNumber <= INT_MAX)
  }

  // The left neighbour of command k ends in `|`.
  predicate FollowsPipe(cs: seq<Command>, k: nat)
    requires k < |cs|
  {
    k > 0 && cs[k-1].pipeAfter
  }

  // The left neighbour of command k ends in `|n` or `!n`.
  predicate FollowsNumber(cs: seq<Command>, k: nat)
    requires k < |cs|
  {
    k > 0 && cs[k-1].numberedAfter
  }

  // Every command reads an ordinary pipe exactly when its left neighbour writes one.
  predicate Linked(cs: seq<Command>) {
    && (forall k :: 0 <= k < |cs| ==> Coherent(cs[k]))
    && (forall k :: 0 <= k < |cs| ==> cs[k].pipeBefore == FollowsPipe(cs, k))
  }

  // The commands of one input line: linked, not ending in an open pipe, and with plain or
  // redirected commands only at the end.
  predicate Chain(cs: seq<Command>) {
    && Linked(cs)
    && (forall k :: 0 <= k < |cs| ==> cs[k].numberedBefore == FollowsNumber(cs, k))
    && (forall k :: 0 <= k < |cs| - 1 ==> cs[k].pipeAfter || cs[k].numberedAfter)
    && (cs != [] ==> !cs[|cs|-1].pipeAfter)
  }
}
