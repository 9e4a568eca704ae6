/** The multi-process server: user processes that share one table of slots and user pipes, and change
    it only in sections guarded by a semaphore. A section is one atomic step; a run is any
    interleaving of steps. */
module SharedTable {
  import opened Outcomes

  // Logging in takes two sections of the master process: it picks a free slot and starts the user's
  // process, and it marks the slot taken; the user may act in between. Receiving takes three: the check
  // before the fork, the child's own section, and the clearing in the parent. The last two come in
  // either order, and the child's may even come after later commands of its user. A redirection forks
  // without a check.
  datatype Action =
    | Pick
    | Admit
    | Send(me: nat, to: nat)
    | Check(me: nat, from: nat)
    | Fork(me: nat, from: nat)
    | Test(child: nat)
    | Finish(me: nat)
    | Exit(me: nat)

  // A user process on its way to the clearing: whether its check found a pipe, and which, and the
  // child once it is forked.
  datatype Receiving = Receiving(from: nat, found: Option<nat>, child: Option<nat>)

  // A child that reads a user pipe, and the mark that its section found: with 0 it turns to /dev/null,
  // with any other it takes the descriptor kept for the sender.
  datatype Child = Child(me: nat, from: nat, seen: Option<nat>)

  // `taken` are the slots marked taken, `live` the users whose process runs, `picked` the slot between
  // the two sections of a login. `record` holds the pipes that wait, each with the number of its send;
  // `inId` is the mark user_pipe_in_id[receiver][sender], and a missing entry is zero.
  datatype State = State(taken: set<nat>, live: set<nat>, picked: Option<nat>, record: map<(nat, nat), nat>,
                         inId: map<(nat, nat), nat>, receiving: map<nat, Receiving>, children: seq<Child>, sends: nat)

  const START := State({}, {}, None, map[], map[], map[], [], 0)

  predicate IsUser(id: nat) { 1 <= id <= 30 }

  function LeastFree(taken: set<nat>, k: nat): (id: nat)
    requires 1 <= k <= 31
    ensures k <= id <= 31
    ensures forall i :: k <= i < id ==> i in taken
    ensures id <= 30 ==> id !in taken
    decreases 31 - k
  {
    if k == 31 || k !in taken then k else LeastFree(taken, k + 1)
  }

  lemma {:induction false} LeastIs(taken: set<nat>, k: nat, id: nat)
    requires 1 <= k <= id <= 31 && (forall i :: k <= i < id ==> i in taken) && (id == 31 || id !in taken)
    ensures LeastFree(taken, k) == id
    decreases id - k
  {
    if k < id { LeastIs(taken, k + 1, id); }
  }

  // One master process logs users in one after the other. A user's process exits or checks again only
  // between commands, and checks for a pipe to send before the fork.
  predicate Enabled(s: State, a: Action) {
    match a
    case Pick => s.picked.None? && IsUser(LeastFree(s.taken, 1))
    case Admit => s.picked.Some?
    case Send(me, to) => me in s.live && to >= 1 && (me in s.receiving ==> s.receiving[me].child.None?)
    case Check(me, from) => me in s.live && IsUser(from) && me !in s.receiving
    case Fork(me, from) =>
      && me in s.live && IsUser(from)
      && (me in s.receiving ==> s.receiving[me].from == from && s.receiving[me].child.None?)
    case Test(n) => n < |s.children| && s.children[n].seen.None?
    case Finish(me) => me in s.receiving && s.receiving[me].child.Some?
    case Exit(me) => me in s.live && me !in s.receiving
  }

  function Mark(s: State, to: nat, from: nat): nat {
    if (to, from) in s.inId then s.inId[(to, from)] else 0
  }

  predicate Accepts(s: State, me: nat, to: nat) {
    to in s.taken && (me, to) !in s.record
  }

  function Found(s: State, me: nat, from: nat): Option<nat> {
    if from in s.taken && (from, me) in s.record then Some(s.record[(from, me)]) else None
  }

  function Forget(record: map<(nat, nat), nat>, me: nat): map<(nat, nat), nat> {
    map k | k in record && k.0 != me && k.1 != me :: record[k]
  }

  // The clearing section: it goes by the receiver's mark.
  function Cleared(s: State, me: nat, from: nat): map<(nat, nat), nat> {
    if Mark(s, me, from) != 0 then s.record - {(from, me)} else s.record
  }

  // The child's section: user_pipe_in tests the mark.
  function Seen(s: State, c: Child): Child {
    c.(seen := Some(Mark(s, c.me, c.from)))
  }

  function Apply(s: State, a: Action): State {
    match a
    case Pick => s.(live := s.live + {LeastFree(s.taken, 1)}, picked := Some(LeastFree(s.taken, 1)))
    case Admit => if s.picked.Some? then s.(taken := s.taken + {s.picked.value}, picked := None) else s
    case Send(me, to) =>
      if Accepts(s, me, to) then s.(record := s.record[(me, to) := s.sends], inId := s.inId[(to, me) := me], sends := s.sends + 1)
      else s
    case Check(me, from) =>
      s.(receiving := s.receiving[me := Receiving(from, Found(s, me, from), None)],
         inId := if Found(s, me, from).None? then s.inId[(me, from) := 0] else s.inId)
    case Fork(me, from) =>
      s.(receiving := s.receiving[me := Receiving(from, if me in s.receiving then s.receiving[me].found else None, Some(|s.children|))],
         children := s.children + [Child(me, from, None)])
    case Test(n) =>
      if n < |s.children| then s.(children := s.children[n := Seen(s, s.children[n])]) else s
    case Finish(me) =>
      if me !in s.receiving then s
      else s.(receiving := s.receiving - {me}, record := Cleared(s, me, s.receiving[me].from))
    case Exit(me) =>
      s.(taken := s.taken - {me}, live := s.live - {me}, record := Forget(s.record, me))
  }

  function Run(s: State, run: seq<Action>): State {
    if run == [] then s else Apply(Run(s, run[..|run|-1]), run[|run|-1])
  }

  predicate Possible(s: State, run: seq<Action>) {
    run != [] ==> Possible(s, run[..|run|-1]) && Enabled(Run(s, run[..|run|-1]), run[|run|-1])
  }

  // There are thirty slots: a login is possible as long as one of them is not taken.
  lemma ThirtySlots(s: State)
    requires s.picked.None?
    ensures Enabled(s, Pick) <==> exists i: nat :: 1 <= i <= 30 && i !in s.taken
    ensures Enabled(s, Pick) ==> var id := LeastFree(s.taken, 1);
      id !in s.taken && 1 <= id <= 30 && forall i :: 1 <= i < id ==> i in s.taken
  {
    var id := LeastFree(s.taken, 1);
    if i: nat :| 1 <= i <= 30 && i !in s.taken { assert id <= i; }
  }

  // ----- What every interleaving keeps -----------------------------------------------------------------

  // A live user's slot is taken or just being taken; a waiting pipe goes from a live user to a taken
  // slot.
  ghost predicate Safe(s: State) {
    && (forall i :: i in s.taken + s.live ==> IsUser(i))
    && (forall i :: i in s.live ==> i in s.taken || s.picked == Some(i))
    && (s.picked.Some? ==> IsUser(s.picked.value) && s.picked.value !in s.taken)
    && (forall k :: k in s.record ==> k.0 in s.live && k.1 in s.taken)
    && (forall k :: k in s.record ==> s.record[k] < s.sends)
    && (forall me :: me in s.receiving ==> me in s.live && Noted(s, me, s.receiving[me]))
    && (forall c :: c in s.children ==> IsUser(c.me) && IsUser(c.from))
  }

  predicate Noted(s: State, me: nat, r: Receiving) {
    && IsUser(r.from) && (r.found.Some? ==> r.found.value < s.sends)
    && (r.child.Some? ==> r.child.value < |s.children| && IsChildOf(s.children[r.child.value], me, r.from))
  }

  predicate IsChildOf(c: Child, me: nat, from: nat) {
    c.me == me && c.from == from
  }

  lemma ApplySafe(s: State, a: Action)
    requires Safe(s) && Enabled(s, a)
    ensures Safe(Apply(s, a))
  {
  }

  // Main result: under every interleaving a recorded pipe goes from a live user to a taken slot, and a
  // user who is given a recycled slot starts with no pipe to or from it.
  lemma {:induction false} RunSafe(s: State, run: seq<Action>)
    requires Safe(s) && Possible(s, run)
    ensures Safe(Run(s, run))
    ensures Enabled(Run(s, run), Pick) ==>
              var id := LeastFree(Run(s, run).taken, 1);
              forall j :: (id, j) !in Apply(Run(s, run), Pick).record && (j, id) !in Apply(Run(s, run), Pick).record
  {
    if run != [] {
      RunSafe(s, run[..|run|-1]);
      ApplySafe(Run(s, run[..|run|-1]), run[|run|-1]);
    }
  }

  // ----- Slots that nobody is in -------------------------------------------------------------------------

  // The slot is taken, but nobody is there.
  predicate Dead(s: State, i: nat) {
    i in s.taken && i !in s.live
  }

  // Slot i is marked at step k after its user has left.
  predicate AdmittedTooLate(s: State, run: seq<Action>, k: nat, i: nat) {
    && k < |run| && run[k] == Admit
    && i !in Run(s, run[..k]).live && Run(s, run[..k]).picked == Some(i)
  }

  ghost predicate EverTooLate(s: State, run: seq<Action>, i: nat) {
    exists k :: AdmittedTooLate(s, run, k, i)
  }

  lemma DeadStep(s: State, a: Action, i: nat)
    requires Safe(s) && Enabled(s, a)
    ensures Dead(Apply(s, a), i) <==> Dead(s, i) || (a == Admit && i !in s.live && s.picked == Some(i))
  {
  }

  // Main result: a slot is taken with nobody in it if and only if at some point it was marked after its
  // user had left; so once dead it stays dead, and is never given out again.
  lemma {:induction false} DeadIff(s: State, run: seq<Action>, i: nat)
    requires Safe(s) && !Dead(s, i) && Possible(s, run)
    ensures Dead(Run(s, run), i) <==> EverTooLate(s, run, i)
  {
    hide Safe, Apply, Enabled, Dead;
    if run != [] {
      var n := |run| - 1;
      DeadIff(s, run[..n], i);
      RunSafe(s, run[..n]);
      DeadStep(Run(s, run[..n]), run[n], i);
      TooLateSnoc(s, run, i);
    }
  }

  lemma TooLateSnoc(s: State, run: seq<Action>, i: nat)
    requires run != []
    ensures EverTooLate(s, run, i) <==> EverTooLate(s, run[..|run|-1], i) || AdmittedTooLate(s, run, |run| - 1, i)
  {
    var n := |run| - 1;
    forall k: nat | k < n ensures AdmittedTooLate(s, run, k, i) <==> AdmittedTooLate(s, run[..n], k, i) {
      assert run[..n][..k] == run[..k] && run[..n][k] == run[k];
    }
    if k :| AdmittedTooLate(s, run, k, i) {
      assert k == n || AdmittedTooLate(s, run[..n], k, i);
    }
    if k :| AdmittedTooLate(s, run[..n], k, i) {
      assert AdmittedTooLate(s, run, k, i);
    }
  }

  // ----- What a receive receives -------------------------------------------------------------------------

  // The same receive, perhaps with a child by now.
  predicate GoesOn(r: Receiving, t: Receiving) {
    t.from == r.from && t.found == r.found && (r.child.Some? ==> t.child == r.child)
  }

  lemma ReceiverIsIn(s: State, me: nat)
    requires Safe(s) && me in s.receiving
    ensures me in s.live
  {
  }

  lemma ReceivingStep(s: State, a: Action, me: nat)
    requires Safe(s) && Enabled(s, a) && me in s.receiving && a != Finish(me)
    ensures var t := Apply(s, a); me in t.receiving && GoesOn(s.receiving[me], t.receiving[me]) && me in t.live
    ensures var t := Apply(s, a);
      && |t.children| >= |s.children|
      && (s.receiving[me].child.None? && t.receiving[me].child.Some? ==> t.receiving[me].child.value == |s.children|)
  {
  }

  // Up to its own Finish a process stays where it is, logged in and receiving.
  lemma {:induction false} StaysReceiving(s: State, run: seq<Action>, me: nat)
    requires Safe(s) && Possible(s, run) && me in s.receiving && Finish(me) !in run
    ensures var t := Run(s, run); me in t.receiving && GoesOn(s.receiving[me], t.receiving[me]) && me in t.live
  {
    hide Safe, Enabled, Apply;
    if run != [] {
      var n := |run| - 1;
      assert run == run[..n] + [run[n]];
      RunSafe(s, run[..n]);
      StaysReceiving(s, run[..n], me);
      ReceivingStep(Run(s, run[..n]), run[n], me);
    } else {
      ReceiverIsIn(s, me);
    }
  }

  // Send number v from `from` to `me` is recorded.
  predicate Records(s: State, from: nat, me: nat, v: nat) {
    (from, me) in s.record && s.record[(from, me)] == v
  }

  lemma FoundStep(s: State, a: Action, me: nat, from: nat, v: nat)
    requires Safe(s) && Enabled(s, a) && me in s.receiving && a != Finish(me) && v < s.sends
    ensures Records(Apply(s, a), from, me, v) <==> Records(s, from, me, v) && a != Exit(from)
  {
    if a.Finish? { assert (s.receiving[a.me].from, a.me) != (from, me); }
  }

  // Main result: a check that found a pipe still finds that very pipe when the process comes back to
  // clear it if and only if the sender did not leave in between; after a departure the entry is gone
  // or belongs to a later send.
  lemma {:induction false} FoundPipeStays(s: State, run: seq<Action>, me: nat)
    requires Safe(s) && Possible(s, run) && me in s.receiving && Finish(me) !in run
    requires s.receiving[me].found.Some? && Records(s, s.receiving[me].from, me, s.receiving[me].found.value)
    ensures Records(Run(s, run), s.receiving[me].from, me, s.receiving[me].found.value) <==> Exit(s.receiving[me].from) !in run
  {
    hide Safe, Enabled, Apply;
    if run != [] {
      var n, r := |run| - 1, s.receiving[me];
      FoundPipeStays(s, run[..n], me);
      StaysReceiving(s, run[..n], me);
      RunSafe(s, run[..n]);
      SendsGrow(s, run[..n]);
      FoundIsOld(s, me);
      assert run == run[..n] + [run[n]];
      FoundStep(Run(s, run[..n]), run[n], me, r.from, r.found.value);
    }
  }

  lemma FoundIsOld(s: State, me: nat)
    requires Safe(s) && me in s.receiving && s.receiving[me].found.Some?
    ensures s.receiving[me].found.value < s.sends
  {
  }

  lemma {:induction false} SendsGrow(s: State, run: seq<Action>)
    ensures s.sends <= Run(s, run).sends
  {
    if run != [] { SendsGrow(s, run[..|run|-1]); }
  }

  // At step k that user's send is accepted.
  predicate Delivers(s: State, run: seq<Action>, k: nat, from: nat, me: nat) {
    k < |run| && run[k] == Send(from, me) && Accepts(Run(s, run[..k]), from, me)
  }

  // That happened, and the sender has not left since.
  ghost predicate SentSince(s: State, run: seq<Action>, from: nat, me: nat) {
    exists k: nat :: Delivers(s, run, k, from, me) && Exit(from) !in run[k..]
  }

  ghost predicate EverSent(s: State, run: seq<Action>, from: nat, me: nat) {
    exists k :: Delivers(s, run, k, from, me)
  }

  lemma OneMoreDelivers(s: State, run: seq<Action>, from: nat, me: nat)
    requires run != []
    ensures forall k: nat | k < |run| - 1 :: Delivers(s, run, k, from, me) == Delivers(s, run[..|run|-1], k, from, me)
  {
    forall k: nat | k < |run| - 1
      ensures run[..|run|-1][k] == run[k] && run[..|run|-1][..k] == run[..k]
    {
    }
  }

  lemma EverSentSnoc(s: State, run: seq<Action>, from: nat, me: nat)
    requires run != []
    ensures EverSent(s, run, from, me) <==> Delivers(s, run, |run| - 1, from, me) || EverSent(s, run[..|run|-1], from, me)
  {
    var n := |run| - 1;
    OneMoreDelivers(s, run, from, me);
    if k :| Delivers(s, run, k, from, me) {
      assert k == n || Delivers(s, run[..n], k, from, me);
    }
    if k :| Delivers(s, run[..n], k, from, me) {
      assert Delivers(s, run, k, from, me);
    }
  }

  lemma SentSinceSnoc(s: State, run: seq<Action>, from: nat, me: nat)
    requires run != []
    ensures var n := |run| - 1;
      SentSince(s, run, from, me) <==>
      Delivers(s, run, n, from, me) || (run[n] != Exit(from) && SentSince(s, run[..n], from, me))
  {
    var n := |run| - 1;
    OneMoreDelivers(s, run, from, me);
    forall k: nat | k < n
      ensures Exit(from) in run[k..] <==> Exit(from) in run[..n][k..] || run[n] == Exit(from)
    {
      assert run[k..] == run[..n][k..] + [run[n]];
    }
    assert run[n..] == [run[n]];
    if k: nat :| Delivers(s, run, k, from, me) && Exit(from) !in run[k..] {
      assert k == n || (Delivers(s, run[..n], k, from, me) && Exit(from) !in run[..n][k..]);
    }
    if run[n] != Exit(from) && SentSince(s, run[..n], from, me) {
      var k: nat :| Delivers(s, run[..n], k, from, me) && Exit(from) !in run[..n][k..];
      assert Delivers(s, run, k, from, me) && Exit(from) !in run[k..];
    }
    if Delivers(s, run, n, from, me) {
      assert Exit(from) !in run[n..];
    }
  }

  // A check that found nothing is followed by a clearing that drops a pipe if and only if that user
  // sent one in between and stayed. `DroppedUnread` says when the child has gone without it.
  lemma {:induction false} MissedPipe(s: State, run: seq<Action>, me: nat)
    requires Safe(s) && Possible(s, run) && me in s.receiving && Finish(me) !in run
    requires Mark(s, me, s.receiving[me].from) == 0
    ensures Drops(Run(s, run), me) <==> SentSince(s, run, s.receiving[me].from, me)
  {
    hide Safe, Enabled, Apply, SentSince;
    var from := s.receiving[me].from;
    StaysReceiving(s, run, me);
    DropsIf(Run(s, run), me);
    if run == [] {
      NothingSent(s, from, me);
    } else {
      var n := |run| - 1;
      MissedPipe(s, run[..n], me);
      StaysReceiving(s, run[..n], me);
      DropsIf(Run(s, run[..n]), me);
      RunSafe(s, run[..n]);
      assert run == run[..n] + [run[n]];
      SentSinceSnoc(s, run, from, me);
      MissedStep(Run(s, run[..n]), run[n], me, from);
    }
  }

  lemma NothingSent(s: State, from: nat, me: nat)
    ensures !SentSince(s, [], from, me)
  {
  }

  // The coming clearing drops a pipe.
  predicate Drops(s: State, me: nat) {
    Apply(s, Finish(me)).record != s.record
  }

  // A pipe waits and its mark is set.
  predicate Waits(s: State, from: nat, me: nat) {
    (from, me) in s.record && Mark(s, me, from) != 0
  }

  lemma MissedStep(s: State, a: Action, me: nat, from: nat)
    requires Safe(s) && Enabled(s, a) && me in s.receiving && s.receiving[me].from == from && a != Finish(me)
    ensures Waits(Apply(s, a), from, me) <==>
            (a == Send(from, me) && Accepts(s, from, me)) || (a != Exit(from) && Waits(s, from, me))
  {
    assert a != Exit(me) && from != 0;
    if a.Finish? { assert (s.receiving[a.me].from, a.me) != (from, me); }
  }

  lemma DropsIf(s: State, me: nat)
    requires me in s.receiving
    ensures Drops(s, me) <==> Waits(s, s.receiving[me].from, me)
    ensures Drops(s, me) ==> Apply(s, Finish(me)).record == s.record - {(s.receiving[me].from, me)}
  {
    var key := (s.receiving[me].from, me);
    if key in s.record {
      assert key !in s.record - {key};
    } else {
      assert s.record - {key} == s.record;
    }
  }

  // ----- Pipes that nobody can take ------------------------------------------------------------------------

  // The pipe waits, but its mark is clear: every child turns to /dev/null and no clearing drops it.
  predicate Stuck(s: State, from: nat, me: nat) {
    (from, me) in s.record && Mark(s, me, from) == 0
  }

  // At step k the receiver looks for the pipe while the sender's slot is not yet marked taken.
  predicate Overlooks(s: State, run: seq<Action>, k: nat, from: nat, me: nat) {
    && k < |run| && run[k] == Check(me, from)
    && from !in Run(s, run[..k]).taken && (from, me) in Run(s, run[..k]).record
  }

  // That happened, and neither user has left since.
  ghost predicate OverlookedSince(s: State, run: seq<Action>, from: nat, me: nat) {
    exists k: nat :: Overlooks(s, run, k, from, me) && Exit(from) !in run[k..] && Exit(me) !in run[k..]
  }

  lemma StuckStep(s: State, a: Action, from: nat, me: nat)
    requires Safe(s) && Enabled(s, a)
    ensures Stuck(Apply(s, a), from, me) <==>
      || (a == Check(me, from) && from !in s.taken && (from, me) in s.record)
      || (a != Exit(from) && a != Exit(me) && Stuck(s, from, me))
  {
    if a == Send(from, me) { assert from in s.taken + s.live; }
    if (from, me) in s.record { assert from in s.taken + s.live; }
  }

  lemma OverlookedSnoc(s: State, run: seq<Action>, from: nat, me: nat)
    requires run != []
    ensures var n := |run| - 1;
      OverlookedSince(s, run, from, me) <==>
      || Overlooks(s, run, n, from, me)
      || (run[n] != Exit(from) && run[n] != Exit(me) && OverlookedSince(s, run[..n], from, me))
  {
    var n := |run| - 1;
    forall k: nat | k < n
      ensures Overlooks(s, run, k, from, me) == Overlooks(s, run[..n], k, from, me)
      ensures Exit(from) in run[k..] <==> Exit(from) in run[..n][k..] || run[n] == Exit(from)
      ensures Exit(me) in run[k..] <==> Exit(me) in run[..n][k..] || run[n] == Exit(me)
    {
      assert run[..n][..k] == run[..k] && run[..n][k] == run[k];
      assert run[k..] == run[..n][k..] + [run[n]];
    }
    assert run[n..] == [run[n]];
    if k: nat :| Overlooks(s, run, k, from, me) && Exit(from) !in run[k..] && Exit(me) !in run[k..] {
      assert k == n || (Overlooks(s, run[..n], k, from, me) && Exit(from) !in run[..n][k..] && Exit(me) !in run[..n][k..]);
    }
    if run[n] != Exit(from) && run[n] != Exit(me) && OverlookedSince(s, run[..n], from, me) {
      var k: nat :| Overlooks(s, run[..n], k, from, me) && Exit(from) !in run[..n][k..] && Exit(me) !in run[..n][k..];
      assert Overlooks(s, run, k, from, me) && Exit(from) !in run[k..] && Exit(me) !in run[k..];
    }
    if Overlooks(s, run, n, from, me) {
      assert Exit(from) !in run[n..] && Exit(me) !in run[n..];
    }
  }

  // Main result: a pipe gets stuck if and only if its receiver looks for it between the sender's start
  // and the marking of the sender's slot; then it stays stuck until one of the two leaves.
  lemma {:induction false} StuckIff(s: State, run: seq<Action>, from: nat, me: nat)
    requires Safe(s) && !Stuck(s, from, me) && Possible(s, run)
    ensures Stuck(Run(s, run), from, me) <==> OverlookedSince(s, run, from, me)
  {
    hide Safe, Apply, Enabled, Stuck, OverlookedSince;
    if run == [] {
      NothingOverlooked(s, from, me);
    } else {
      var n := |run| - 1;
      StuckIff(s, run[..n], from, me);
      RunSafe(s, run[..n]);
      StuckStep(Run(s, run[..n]), run[n], from, me);
      OverlookedSnoc(s, run, from, me);
    }
  }

  lemma NothingOverlooked(s: State, from: nat, me: nat)
    ensures !OverlookedSince(s, [], from, me)
  {
  }

  // ----- What the child takes ------------------------------------------------------------------------------

  // At step k a check of the receiver finds nothing and clears the mark.
  predicate Unmarks(s: State, run: seq<Action>, k: nat, from: nat, me: nat) {
    k < |run| && run[k] == Check(me, from) && Found(Run(s, run[..k]), me, from).None?
  }

  ghost predicate UnmarkedSince(s: State, run: seq<Action>, k: nat, from: nat, me: nat) {
    exists j :: j >= k && Unmarks(s, run, j, from, me)
  }

  // The last accepted send is after the last check that found nothing.
  ghost predicate MarkedLast(s: State, run: seq<Action>, from: nat, me: nat) {
    || (exists k :: Delivers(s, run, k, from, me) && !UnmarkedSince(s, run, k, from, me))
    || (Mark(s, me, from) != 0 && !UnmarkedSince(s, run, 0, from, me))
  }

  lemma OneMoreMarks(s: State, run: seq<Action>, from: nat, me: nat)
    requires run != []
    ensures var n := |run| - 1;
      && (forall k: nat | k < n :: Delivers(s, run, k, from, me) == Delivers(s, run[..n], k, from, me))
      && (forall k: nat | k < n :: Unmarks(s, run, k, from, me) == Unmarks(s, run[..n], k, from, me))
  {
    forall k: nat | k < |run| - 1
      ensures run[..|run|-1][k] == run[k] && run[..|run|-1][..k] == run[..k]
    {
    }
  }

  lemma OneMoreUnmark(s: State, run: seq<Action>, k: nat, from: nat, me: nat)
    requires k < |run|
    ensures UnmarkedSince(s, run, k, from, me) <==>
            Unmarks(s, run, |run| - 1, from, me) || UnmarkedSince(s, run[..|run|-1], k, from, me)
  {
    var n := |run| - 1;
    OneMoreMarks(s, run, from, me);
    hide Unmarks;
    if j :| j >= k && Unmarks(s, run, j, from, me) {
      InRun(s, run, j, from, me);
      assert j == n || Unmarks(s, run[..n], j, from, me);
    }
    if j :| j >= k && Unmarks(s, run[..n], j, from, me) {
      InRun(s, run[..n], j, from, me);
      assert Unmarks(s, run, j, from, me);
    }
  }

  lemma InRun(s: State, run: seq<Action>, j: nat, from: nat, me: nat)
    requires Unmarks(s, run, j, from, me) || Delivers(s, run, j, from, me)
    ensures j < |run|
  {
  }

  lemma MarkedSnoc(s: State, run: seq<Action>, from: nat, me: nat)
    requires run != []
    ensures var n := |run| - 1;
      MarkedLast(s, run, from, me) <==>
      Delivers(s, run, n, from, me) || (!Unmarks(s, run, n, from, me) && MarkedLast(s, run[..n], from, me))
  {
    var n := |run| - 1;
    assert !(Delivers(s, run, n, from, me) && Unmarks(s, run, n, from, me));
    OneMoreMarks(s, run, from, me);
    OneMoreUnmark(s, run, 0, from, me);
    hide Delivers, Unmarks, Mark, UnmarkedSince;
    if Delivers(s, run, n, from, me) {
      NoLaterUnmark(s, run, from, me);
    }
    forall k: nat | Delivers(s, run, k, from, me)
      ensures k < |run| && (k < n ==> Delivers(s, run[..n], k, from, me))
      ensures UnmarkedSince(s, run, k, from, me) <==> Unmarks(s, run, n, from, me) || UnmarkedSince(s, run[..n], k, from, me)
    {
      InRun(s, run, k, from, me);
      OneMoreUnmark(s, run, k, from, me);
    }
    forall k: nat | Delivers(s, run[..n], k, from, me) ensures Delivers(s, run, k, from, me) {
      InRun(s, run[..n], k, from, me);
    }
  }

  lemma NoLaterUnmark(s: State, run: seq<Action>, from: nat, me: nat)
    requires run != [] && Delivers(s, run, |run| - 1, from, me)
    ensures !UnmarkedSince(s, run, |run| - 1, from, me)
  {
  }

  // The mark is set exactly when the last accepted send is after the last check that found nothing.
  lemma {:induction false} MarkIs(s: State, run: seq<Action>, from: nat, me: nat)
    requires from != 0
    ensures Mark(Run(s, run), me, from) != 0 <==> MarkedLast(s, run, from, me)
  {
    if run != [] {
      var n := |run| - 1;
      MarkIs(s, run[..n], from, me);
      MarkedSnoc(s, run, from, me);
      hide MarkedLast;
      MarkStep(Run(s, run[..n]), run[n], from, me);
    }
  }

  lemma MarkStep(s: State, a: Action, from: nat, me: nat)
    requires from != 0
    ensures Mark(Apply(s, a), me, from) != 0 <==>
      || (a == Send(from, me) && Accepts(s, from, me))
      || (Mark(s, me, from) != 0 && !(a == Check(me, from) && Found(s, me, from).None?))
  {
  }
  // The child tests at step k.
  predicate TestsAt(run: seq<Action>, k: nat, n: nat) {
    k < |run| && run[k] == Test(n)
  }

  lemma TestsBefore(run: seq<Action>, n: nat)
    requires run != []
    ensures forall k: nat :: TestsAt(run, k, n) <==> (k == |run| - 1 && run[k] == Test(n)) || TestsAt(run[..|run|-1], k, n)
  {
  }

  lemma TestStep(s: State, a: Action, n: nat)
    requires Enabled(s, a)
    ensures a == Test(n) ==> n < |s.children| && Apply(s, a).children == s.children[n := Seen(s, s.children[n])]
    ensures n < |s.children| && s.children[n].seen.Some? ==> n < |Apply(s, a).children| && Apply(s, a).children[n] == s.children[n]
  {
  }

  // What a child has seen is the mark at its own step.
  lemma {:induction false} SeenAt(s: State, run: seq<Action>, n: nat, k: nat)
    requires Possible(s, run) && TestsAt(run, k, n)
    ensures var t := Run(s, run[..k]);
      && n < |t.children| && n < |Run(s, run).children|
      && Run(s, run).children[n] == Seen(t, t.children[n])
  {
    hide Apply, Mark;
    var m := |run| - 1;
    TestStep(Run(s, run[..m]), run[m], n);
    if k < m {
      assert run[..m][..k] == run[..k];
      SeenAt(s, run[..m], n, k);
    }
  }

  lemma {:induction false} SeenOnce(s: State, run: seq<Action>, n: nat)
    requires Possible(s, run) && n < |Run(s, run).children|
    requires n < |s.children| ==> s.children[n].seen.None?
    ensures Run(s, run).children[n].seen.Some? <==> exists k :: TestsAt(run, k, n)
  {
    if run != [] {
      var m := |run| - 1;
      if n < |Run(s, run[..m]).children| {
        SeenOnce(s, run[..m], n);
      } else {
        NotForked(s, run[..m], n);
      }
      TestsBefore(run, n);
      assert run[m] == Test(n) ==> TestsAt(run, m, n);
      SeenStep(Run(s, run[..m]), run[m], n);
      hide Apply, Enabled;
    }
  }

  lemma SeenStep(s: State, a: Action, n: nat)
    requires Enabled(s, a) && n < |Apply(s, a).children|
    ensures Apply(s, a).children[n].seen.Some? <==> a == Test(n) || (n < |s.children| && s.children[n].seen.Some?)
  {
  }

  lemma {:induction false} NotForked(s: State, run: seq<Action>, n: nat)
    requires Possible(s, run) && n >= |Run(s, run).children|
    ensures forall k :: !TestsAt(run, k, n)
  {
    if run != [] {
      var m := |run| - 1;
      NotForked(s, run[..m], n);
      TestsBefore(run, n);
    }
  }

  // Main result: whatever else happens, a child whose section comes at step k takes the sender's
  // descriptor if and only if, up to then, the last send accepted from that user is after the last check
  // of the receiver that found nothing; else it turns to /dev/null.
  lemma ChildTakesIff(s: State, run: seq<Action>, n: nat, k: nat)
    requires Safe(s) && Possible(s, run) && TestsAt(run, k, n)
    ensures n < |Run(s, run).children|
    ensures var c := Run(s, run).children[n];
      c.seen.Some? && (c.seen.value != 0 <==> MarkedLast(s, run[..k], c.from, c.me))
  {
    SeenAt(s, run, n, k);
    PossiblePrefix(s, run, k);
    RunSafe(s, run[..k]);
    var c := Run(s, run[..k]).children[n];
    assert c in Run(s, run[..k]).children;
    MarkIs(s, run[..k], c.from, c.me);
  }

  lemma {:induction false} PossiblePrefix(s: State, run: seq<Action>, k: nat)
    requires Possible(s, run) && k <= |run|
    ensures Possible(s, run[..k])
  {
    if k < |run| {
      PossiblePrefix(s, run[..|run|-1], k);
      assert run[..|run|-1][..k] == run[..k];
    } else {
      assert run[..k] == run;
    }
  }

  // Before the clearing of its receive nothing takes the mark away, and any send sets it.
  lemma {:induction false} MarkWhileReceiving(s: State, run: seq<Action>, me: nat)
    requires Safe(s) && Possible(s, run) && me in s.receiving && Finish(me) !in run
    ensures var from := s.receiving[me].from;
      Mark(Run(s, run), me, from) != 0 <==> Mark(s, me, from) != 0 || EverSent(s, run, from, me)
  {
    if run != [] {
      var n, from := |run| - 1, s.receiving[me].from;
      hide Safe, Apply, EverSent;
      assert run == run[..n] + [run[n]];
      MarkWhileReceiving(s, run[..n], me);
      StaysReceiving(s, run[..n], me);
      RunSafe(s, run[..n]);
      EverSentSnoc(s, run, from, me);
      MarkNext(Run(s, run[..n]), run[n], from, me);
    }
  }

  lemma MarkNext(s: State, a: Action, from: nat, me: nat)
    requires Safe(s) && Enabled(s, a) && me in s.receiving && s.receiving[me].from == from
    ensures Mark(Apply(s, a), me, from) != 0 <==> Mark(s, me, from) != 0 || (a == Send(from, me) && Accepts(s, from, me))
  {
    assert from != 0;
    MarkStep(s, a, from, me);
  }

  // The child has turned to /dev/null and the clearing drops a pipe.
  predicate DropsUnread(s: State, me: nat) {
    && me in s.receiving && s.receiving[me].child.Some? && s.receiving[me].child.value < |s.children|
    && s.children[s.receiving[me].child.value].seen == Some(0)
    && Drops(s, me)
  }

  // The child tests at step k, before that user sends a pipe; one is sent later, and the sender stays.
  ghost predicate SentTooLate(s: State, run: seq<Action>, k: nat, n: nat, from: nat, me: nat) {
    TestsAt(run, k, n) && !EverSent(s, run[..k], from, me) && SentSince(s, run, from, me)
  }

  // Main result: after a check that found nothing, the clearing drops a pipe that the child has gone
  // without if and only if it was sent between the child's section and the clearing and its sender
  // stayed.
  lemma DroppedUnread(s: State, run: seq<Action>, me: nat, n: nat)
    requires Safe(s) && Possible(s, run) && me in s.receiving && Finish(me) !in run
    requires s.receiving[me].child.None? && Mark(s, me, s.receiving[me].from) == 0
    requires var t := Run(s, run); me in t.receiving ==> t.receiving[me].child == Some(n)
    ensures DropsUnread(Run(s, run), me) <==> exists k :: SentTooLate(s, run, k, n, s.receiving[me].from, me)
  {
    var from, t := s.receiving[me].from, Run(s, run);
    StaysReceiving(s, run, me);
    ForkedSince(s, run, me);
    DropsAre(s, run, me, n);
    SeenOnce(s, run, n);
    hide *;
    forall k: nat
      ensures SentTooLate(s, run, k, n, from, me) <==>
              TestsAt(run, k, n) && t.children[n].seen == Some(0) && SentSince(s, run, from, me)
    {
      TooLateIs(s, run, me, n, k);
    }
  }

  lemma TooLateIs(s: State, run: seq<Action>, me: nat, n: nat, k: nat)
    requires Safe(s) && Possible(s, run) && me in s.receiving && Finish(me) !in run
    requires Mark(s, me, s.receiving[me].from) == 0
    requires n < |Run(s, run).children| && IsChildOf(Run(s, run).children[n], me, s.receiving[me].from)
    ensures SentTooLate(s, run, k, n, s.receiving[me].from, me) <==>
            TestsAt(run, k, n) && Run(s, run).children[n].seen == Some(0) && SentSince(s, run, s.receiving[me].from, me)
  {
    hide Safe, Apply, SentSince, EverSent, Mark, Possible, Run;
    if TestsAt(run, k, n) {
      TestedAt(s, run, me, n, k);
    }
  }

  lemma DropsAre(s: State, run: seq<Action>, me: nat, n: nat)
    requires Safe(s) && Possible(s, run) && me in s.receiving && Finish(me) !in run
    requires Mark(s, me, s.receiving[me].from) == 0
    requires var t := Run(s, run); me in t.receiving && t.receiving[me].child == Some(n) && n < |t.children|
    ensures DropsUnread(Run(s, run), me) <==>
            Run(s, run).children[n].seen == Some(0) && SentSince(s, run, s.receiving[me].from, me)
  {
    MissedPipe(s, run, me);
  }

  // A child that the receive did not have yet is forked during the run.
  lemma {:induction false} ForkedSince(s: State, run: seq<Action>, me: nat)
    requires Safe(s) && Possible(s, run) && me in s.receiving && Finish(me) !in run && s.receiving[me].child.None?
    ensures var t := Run(s, run);
      && |t.children| >= |s.children| && me in t.receiving
      && (t.receiving[me].child.Some? ==>
            && |s.children| <= t.receiving[me].child.value < |t.children|
            && IsChildOf(t.children[t.receiving[me].child.value], me, s.receiving[me].from))
  {
    hide Safe, Enabled, Apply;
    StaysReceiving(s, run, me);
    RunSafe(s, run);
    HasItsChild(Run(s, run), me);
    if run != [] {
      var n := |run| - 1;
      assert run == run[..n] + [run[n]];
      ForkedSince(s, run[..n], me);
      RunSafe(s, run[..n]);
      ReceivingStep(Run(s, run[..n]), run[n], me);
    }
  }

  lemma HasItsChild(s: State, me: nat)
    requires Safe(s) && me in s.receiving
    ensures s.receiving[me].child.Some? ==>
              && s.receiving[me].child.value < |s.children|
              && IsChildOf(s.children[s.receiving[me].child.value], me, s.receiving[me].from)
  {
  }

  lemma TestedAt(s: State, run: seq<Action>, me: nat, n: nat, k: nat)
    requires Safe(s) && Possible(s, run) && me in s.receiving && Finish(me) !in run && TestsAt(run, k, n)
    requires Mark(s, me, s.receiving[me].from) == 0
    requires n < |Run(s, run).children| && IsChildOf(Run(s, run).children[n], me, s.receiving[me].from)
    ensures Run(s, run).children[n].seen == Some(0) <==> !EverSent(s, run[..k], s.receiving[me].from, me)
  {
    SeenAt(s, run, n, k);
    PossiblePrefix(s, run, k);
    MarkWhileReceiving(s, run[..k], me);
  }

  // ----- The failures are within reach ---------------------------------------------------------------------

  lemma RunOneMore(s: State, run: seq<Action>, a: Action)
    ensures Run(s, run + [a]) == Apply(Run(s, run), a)
    ensures Possible(s, run + [a]) <==> Possible(s, run) && Enabled(Run(s, run), a)
  {
    assert (run + [a])[..|run|] == run;
  }

  const TWO := [Pick, Admit, Pick, Admit]

  // One user is logged in and another is on the way.
  lemma PickTwo()
    ensures Possible(START, [Pick, Admit, Pick]) && Run(START, [Pick, Admit, Pick]) == START.(taken := {1}, live := {1, 2}, picked := Some(2))
  {
    RunOneMore(START, [], Pick);
    RunOneMore(START, [] + [Pick], Admit);
    RunOneMore(START, [] + [Pick] + [Admit], Pick);
    assert [] + [Pick] + [Admit] + [Pick] == [Pick, Admit, Pick];
    assert LeastFree({}, 1) == 1 && LeastFree({1}, 2) == 2 && LeastFree({1}, 1) == 2;
  }

  lemma TwoUsers()
    ensures Possible(START, TWO) && Run(START, TWO) == START.(taken := {1, 2}, live := {1, 2})
  {
    PickTwo();
    RunOneMore(START, [Pick, Admit, Pick], Admit);
    assert [Pick, Admit, Pick] + [Admit] == TWO;
  }

  // The first user leaves at once.
  lemma SlotCanDie()
    ensures Possible(START, [Pick, Exit(1), Admit]) && Dead(Run(START, [Pick, Exit(1), Admit]), 1)
  {
    RunOneMore(START, [], Pick);
    RunOneMore(START, [] + [Pick], Exit(1));
    RunOneMore(START, [] + [Pick] + [Exit(1)], Admit);
    assert [] + [Pick] + [Exit(1)] + [Admit] == [Pick, Exit(1), Admit];
    assert LeastFree({}, 1) == 1;
  }

  // User 1 looks for a pipe from user 2 and finds none; the child turns to /dev/null; user 2 sends a
  // pipe; user 1's clearing drops it.
  lemma PipeCanBeMissed()
    ensures var run := TWO + [Check(1, 2), Fork(1, 2), Test(0), Send(2, 1)];
      Possible(START, run) && (2, 1) in Run(START, run).record && DropsUnread(Run(START, run), 1)
  {
    TwoUsers();
    var a := TWO;
    RunOneMore(START, a, Check(1, 2));
    RunOneMore(START, a + [Check(1, 2)], Fork(1, 2));
    RunOneMore(START, a + [Check(1, 2)] + [Fork(1, 2)], Test(0));
    RunOneMore(START, a + [Check(1, 2)] + [Fork(1, 2)] + [Test(0)], Send(2, 1));
    assert a + [Check(1, 2)] + [Fork(1, 2)] + [Test(0)] + [Send(2, 1)]
        == TWO + [Check(1, 2), Fork(1, 2), Test(0), Send(2, 1)];
  }

  // User 1 finds user 2's pipe; user 2 leaves; the entry is gone when user 1 comes to clear it.
  lemma FoundPipeCanGo()
    ensures var run := TWO + [Send(2, 1), Check(1, 2)];
      var s := Run(START, run);
      && Possible(START, run) && 1 in s.receiving && s.receiving[1] == Receiving(2, Some(0), None) && Records(s, 2, 1, 0)
      && Possible(s, [Exit(2)]) && !Records(Run(s, [Exit(2)]), 2, 1, 0)
  {
    TwoUsers();
    RunOneMore(START, TWO, Send(2, 1));
    RunOneMore(START, TWO + [Send(2, 1)], Check(1, 2));
    assert TWO + [Send(2, 1)] == TWO + [Send(2, 1)];
    assert TWO + [Send(2, 1)] + [Check(1, 2)] == TWO + [Send(2, 1), Check(1, 2)];
    var s := Run(START, TWO + [Send(2, 1), Check(1, 2)]);
    RunOneMore(s, [], Exit(2));
    assert [] + [Exit(2)] == [Exit(2)];
  }

  // User 1 types a line with two commands that read from user 2, who has sent one pipe. The check of the
  // second command comes before the section of the first one's child, which goes without the pipe
  // although it was found and cleared for it.
  lemma FoundPipeCanBeUnread()
    ensures var run := TWO + [Send(2, 1), Check(1, 2), Fork(1, 2), Finish(1), Check(1, 2), Test(0)];
      && Possible(START, run) && Run(START, run[..6]).receiving == map[1 := Receiving(2, Some(0), None)]
      && Run(START, run).children == [Child(1, 2, Some(0))]
  {
    TwoUsers();
    var a := TWO + [Send(2, 1)];
    RunOneMore(START, TWO, Send(2, 1));
    RunOneMore(START, a, Check(1, 2));
    RunOneMore(START, a + [Check(1, 2)], Fork(1, 2));
    RunOneMore(START, a + [Check(1, 2)] + [Fork(1, 2)], Finish(1));
    RunOneMore(START, a + [Check(1, 2)] + [Fork(1, 2)] + [Finish(1)], Check(1, 2));
    RunOneMore(START, a + [Check(1, 2)] + [Fork(1, 2)] + [Finish(1)] + [Check(1, 2)], Test(0));
    var run := TWO + [Send(2, 1), Check(1, 2), Fork(1, 2), Finish(1), Check(1, 2), Test(0)];
    assert a + [Check(1, 2)] + [Fork(1, 2)] + [Finish(1)] + [Check(1, 2)] + [Test(0)] == run;
    assert a + [Check(1, 2)] == run[..6];
  }

  // User 2 sends user 1 a pipe before slot 2 is marked taken, and user 1 looks for it. Later it is found,
  // but the child goes without it and the clearing leaves it.
  lemma PipeCanGetStuck()
    ensures var run := [Pick, Admit, Pick] + [Send(2, 1), Check(1, 2), Fork(1, 2), Finish(1)];
      && Possible(START, run) && Stuck(Run(START, run), 2, 1)
      && var more := run + [Admit, Check(1, 2), Fork(1, 2), Test(1), Finish(1)];
         && Possible(START, more) && Stuck(Run(START, more), 2, 1) && Run(START, more).children == [Child(1, 2, None), Child(1, 2, Some(0))]
  {
    var a := [Pick, Admit, Pick];
    PickTwo();
    RunOneMore(START, a, Send(2, 1));
    RunOneMore(START, a + [Send(2, 1)], Check(1, 2));
    RunOneMore(START, a + [Send(2, 1)] + [Check(1, 2)], Fork(1, 2));
    RunOneMore(START, a + [Send(2, 1)] + [Check(1, 2)] + [Fork(1, 2)], Finish(1));
    var run := a + [Send(2, 1), Check(1, 2), Fork(1, 2), Finish(1)];
    assert a + [Send(2, 1)] + [Check(1, 2)] + [Fork(1, 2)] + [Finish(1)] == run;
    hide Stuck;
    RunOneMore(START, run, Admit);
    RunOneMore(START, run + [Admit], Check(1, 2));
    RunOneMore(START, run + [Admit] + [Check(1, 2)], Fork(1, 2));
    RunOneMore(START, run + [Admit] + [Check(1, 2)] + [Fork(1, 2)], Test(1));
    RunOneMore(START, run + [Admit] + [Check(1, 2)] + [Fork(1, 2)] + [Test(1)], Finish(1));
    assert run + [Admit] + [Check(1, 2)] + [Fork(1, 2)] + [Test(1)] + [Finish(1)]
        == run + [Admit, Check(1, 2), Fork(1, 2), Test(1), Finish(1)];
  }
}
