/** What happens between users: pipes sent, pipes received, users leaving. */
module UserPipeHistory {
  import opened Outcomes

  datatype Event = Piped(from: nat, to: nat, pipe: nat) | Received(from: nat, to: nat) | Left(id: nat)

  function Init(h: seq<Event>): seq<Event>
    requires h != []
  {
    h[..|h|-1]
  }

  function Last(h: seq<Event>): Event
    requires h != []
  {
    h[|h|-1]
  }

  // The pipe that i has sent to j and j has not yet received, since the last departure of either.
  function Outstanding(h: seq<Event>, i: nat, j: nat): Option<nat> {
    if h == [] then None
    else match Last(h)
      case Piped(a, b, p) => if a == i && b == j then Some(p) else Outstanding(Init(h), i, j)
      case Received(a, b) => if a == i && b == j then None else Outstanding(Init(h), i, j)
      case Left(a) => if a == i || a == j then None else Outstanding(Init(h), i, j)
  }

  // A pipe is sent only when none is outstanding and received only when one is.
  predicate Protocol(h: seq<Event>) {
    h != [] ==>
      && Protocol(Init(h))
      && match Last(h)
         case Piped(i, j, _) => Outstanding(Init(h), i, j) == None
         case Received(i, j) => Outstanding(Init(h), i, j).Some?
         case Left(_) => true
  }

  // Every sent pipe is newer than all pipes sent before it, and below `bound`.
  predicate NewPipes(h: seq<Event>, bound: nat) {
    h != [] ==>
      match Last(h)
      case Piped(_, _, p) => p < bound && NewPipes(Init(h), p)
      case _ => NewPipes(Init(h), bound)
  }

  lemma {:induction false} NewPipesGrow(h: seq<Event>, bound: nat, more: nat)
    requires NewPipes(h, bound) && bound <= more
    ensures NewPipes(h, more)
  {
    if h != [] && !Last(h).Piped? { NewPipesGrow(Init(h), bound, more); }
  }

  lemma {:induction false} OutstandingBelow(h: seq<Event>, bound: nat, i: nat, j: nat)
    requires NewPipes(h, bound) && Outstanding(h, i, j).Some?
    ensures Outstanding(h, i, j).value < bound
  {
    match Last(h)
    case Piped(a, b, p) => if !(a == i && b == j) { OutstandingBelow(Init(h), p, i, j); }
    case _ => OutstandingBelow(Init(h), bound, i, j);
  }

  // Two outstanding pipes are the same only if they have the same sender and receiver.
  lemma {:induction false} OutstandingDiffer(h: seq<Event>, bound: nat, i: nat, j: nat, k: nat, l: nat)
    requires NewPipes(h, bound)
    requires Outstanding(h, i, j).Some? && Outstanding(h, i, j) == Outstanding(h, k, l)
    ensures i == k && j == l
  {
    match Last(h)
    case Piped(a, b, p) =>
      if a == i && b == j {
        if !(a == k && b == l) { OutstandingBelow(Init(h), p, k, l); }
      } else if a == k && b == l {
        OutstandingBelow(Init(h), p, i, j);
      } else {
        OutstandingDiffer(Init(h), p, i, j, k, l);
      }
    case _ => OutstandingDiffer(Init(h), bound, i, j, k, l);
  }

  lemma {:induction false} ProtocolPrefix(h: seq<Event>, n: nat)
    requires Protocol(h) && n <= |h|
    ensures Protocol(h[..n])
  {
    if n < |h| {
      ProtocolPrefix(Init(h), n);
      assert Init(h)[..n] == h[..n];
    } else {
      assert h[..n] == h;
    }
  }

  predicate Clears(e: Event, i: nat, j: nat) {
    e == Received(i, j) || e == Left(i) || e == Left(j)
  }

  // An outstanding pipe comes from a send that nothing has cleared since.
  lemma {:induction false} OutstandingSince(h: seq<Event>, i: nat, j: nat) returns (k: nat)
    requires Outstanding(h, i, j).Some?
    ensures k < |h| && h[k] == Piped(i, j, Outstanding(h, i, j).value)
    ensures forall m :: k < m < |h| ==> !Clears(h[m], i, j) && !(h[m].Piped? && h[m].from == i && h[m].to == j)
  {
    if Last(h).Piped? && Last(h).from == i && Last(h).to == j {
      k := |h| - 1;
    } else {
      k := OutstandingSince(Init(h), i, j);
      assert forall m :: k < m < |h| - 1 ==> h[m] == Init(h)[m];
    }
  }

  // The other way round: what was sent and not cleared since is outstanding.
  lemma {:induction false} SentIsOutstanding(h: seq<Event>, i: nat, j: nat, k: nat)
    requires Protocol(h) && k < |h| && h[k].Piped? && h[k].from == i && h[k].to == j
    requires forall m :: k < m < |h| ==> !Clears(h[m], i, j)
    ensures Outstanding(h, i, j) == Some(h[k].pipe)
  {
    if k < |h| - 1 {
      assert Init(h)[k] == h[k];
      SentIsOutstanding(Init(h), i, j, k);
    }
  }

  // Nothing outstanding at n, something sent before: it was cleared in between.
  lemma {:induction false} ClearedBetween(h: seq<Event>, a: nat, n: nat, i: nat, j: nat) returns (k: nat)
    requires a < n <= |h| && h[a].Piped? && h[a].from == i && h[a].to == j
    requires Outstanding(h[..n], i, j) == None
    ensures a < k < n && Clears(h[k], i, j)
  {
    assert Last(h[..n]) == h[n - 1] && Init(h[..n]) == h[..n - 1];
    if Clears(h[n - 1], i, j) {
      k := n - 1;
    } else {
      k := ClearedBetween(h, a, n - 1, i, j);
    }
  }

  // Main result: for each ordered pair, sends and receives strictly alternate. Between two sends the
  // pipe was received or one of the two left; every receive has a send before it that nothing
  // cleared in between, and that send is the only one in between.
  lemma Alternation(h: seq<Event>, i: nat, j: nat)
    requires Protocol(h)
    ensures forall a, b ::
              0 <= a < b < |h| && h[a].Piped? && h[a].from == i && h[a].to == j && h[b].Piped? && h[b].from == i && h[b].to == j ==>
              exists k :: a < k < b && Clears(h[k], i, j)
    ensures forall b :: 0 <= b < |h| && h[b] == Received(i, j) ==>
              exists a :: 0 <= a < b && SentUncleared(h, a, b, i, j)
  {
    forall a: nat, b: nat | a < b < |h| && h[a].Piped? && h[a].from == i && h[a].to == j && h[b].Piped? && h[b].from == i && h[b].to == j
      ensures exists k :: a < k < b && Clears(h[k], i, j)
    {
      ProtocolPrefix(h, b + 1);
      assert Last(h[..b + 1]) == h[b] && Init(h[..b + 1]) == h[..b];
      var k := ClearedBetween(h, a, b, i, j);
    }
    forall b: nat | b < |h| && h[b] == Received(i, j) ensures exists a :: 0 <= a < b && SentUncleared(h, a, b, i, j) {
      ProtocolPrefix(h, b + 1);
      assert Last(h[..b + 1]) == h[b] && Init(h[..b + 1]) == h[..b];
      var a := OutstandingSince(h[..b], i, j);
      assert forall m :: a < m < b ==> h[m] == h[..b][m];
      assert SentUncleared(h, a, b, i, j);
    }
  }

  // Event a is a send from i to j, and up to b nothing cleared it and nothing else was sent.
  ghost predicate SentUncleared(h: seq<Event>, a: nat, b: nat, i: nat, j: nat)
    requires a < b <= |h|
  {
    && h[a].Piped? && h[a].from == i && h[a].to == j
    && (forall m :: a < m < b ==> !Clears(h[m], i, j) && !(h[m].Piped? && h[m].from == i && h[m].to == j))
  }
}
