/** The shared memory of the multi-process server: each semaphore-guarded section is one action of
    `SharedTable`. */
module SharedMemorySections {
  import opened Outcomes
  import opened SharedHistory
  import opened SharedTable

  class SharedMemory {
    const available: array<bool>
    const record: array2<bool>
    const inId: array2<nat>
    ghost var state: State
    // The sections and forks so far.
    ghost var run: seq<Action>

    ghost predicate Valid()
      reads this, available, record, inId
    {
      && available.Length == 31
      && record.Length0 == 31 && record.Length1 == 31 && inId.Length0 == 31 && inId.Length1 == 31
      && Possible(START, run) && state == Run(START, run) && Safe(state)
      && (forall i: nat :: IsUser(i) ==> available[i] == (i !in state.taken))
      && (forall i: nat, j: nat :: IsUser(i) && IsUser(j) ==> record[i, j] == ((i, j) in state.record))
      && (forall i: nat, j: nat :: IsUser(i) && IsUser(j) ==> inId[i, j] == Mark(state, i, j))
    }

    constructor ()
      ensures Valid() && state == START && run == []
      ensures fresh(available) && fresh(record) && fresh(inId)
    {
      available := new bool[31](i => true);
      record := new bool[31, 31]((i, j) => false);
      inId := new nat[31, 31]((i, j) => 0);
      state, run := START, [];
    }

    ghost predicate Took(before: State, steps: seq<Action>, a: Action)
      reads this`state, this`run
    {
      state == Apply(before, a) && run == steps + [a]
    }

    ghost method Note(a: Action)
      requires Possible(START, run) && state == Run(START, run) && Enabled(state, a)
      modifies this`state, this`run
      ensures Took(old(state), old(run), a) && Possible(START, run) && state == Run(START, run)
    {
      RunOneMore(START, run, a);
      state, run := Apply(state, a), run + [a];
    }

    method FindAvailableId() returns (id: nat)
      requires Valid()
      ensures id == if IsUser(LeastFree(state.taken, 1)) then LeastFree(state.taken, 1) else 0
    {
      for i := 1 to 31
        invariant forall k :: 1 <= k < i ==> k in state.taken
      {
        if available[i] {
          LeastIs(state.taken, 1, i);
          return i;
        }
      }
      LeastIs(state.taken, 1, 31);
      return 0;
    }

    // The master process picks the least free slot for a new connection and starts its process, or
    // closes the connection.
    method PickSlot() returns (id: nat)
      requires Valid() && state.picked.None?
      modifies this
      ensures Valid() && (id != 0 <==> Enabled(old(state), Pick))
      ensures id != 0 ==> id == LeastFree(old(state).taken, 1) && Took(old(state), old(run), Pick) && state.picked == Some(id)
      ensures id == 0 ==> state == old(state) && run == old(run)
    {
      hide Possible, Run;
      id := FindAvailableId();
      if id != 0 {
        ApplySafe(state, Pick);
        Note(Pick);
      }
    }

    // The master process marks the slot taken.
    method MarkTaken(id: nat)
      requires Valid() && state.picked == Some(id)
      modifies this, available
      ensures Valid() && Took(old(state), old(run), Admit)
    {
      hide Possible, Run;
      ApplySafe(state, Admit);
      available[id] := false;
      Note(Admit);
    }

    // The section before the fork of a command that reads a user pipe.
    method CheckReceive(me: nat, from: nat) returns (found: bool)
      requires Valid() && Enabled(state, Check(me, from))
      modifies this, inId
      ensures Valid() && Took(old(state), old(run), Check(me, from))
      ensures found <==> from in old(state).taken && WaitsIn(old(run), from, me)
    {
      hide Safe, Apply, Mark, Possible, Run, SharedHistory.WaitsIn;
      RecordIs(run, from, me);
      ApplySafe(state, Check(me, from));
      UsersInRange(state, me);
      CheckMarks(state, me, from);
      if available[from] {
        inId[me, from] := 0;
        found := false;
      } else if !record[from, me] {
        inId[me, from] := 0;
        found := false;
      } else {
        found := true;
      }
      Note(Check(me, from));
    }

    // The section before the fork of a command that sends: no answer by the receiver matters.
    method CheckSend(me: nat, to: nat) returns (sent: bool)
      requires Valid() && Enabled(state, Send(me, to))
      modifies this, inId, record
      ensures Valid() && Took(old(state), old(run), Send(me, to))
      ensures sent <==> to in old(state).taken && !WaitsIn(old(run), me, to)
    {
      hide Safe, Apply, Mark, Possible, Run, SharedHistory.WaitsIn;
      RecordIs(run, me, to);
      ApplySafe(state, Send(me, to));
      UsersInRange(state, me);
      SendMarks(state, me, to);
      if to > 30 {
        sent := false;
      } else if available[to] {
        sent := false;
      } else if !record[me, to] {
        inId[to, me] := me;
        record[me, to] := true;
        sent := true;
      } else {
        sent := false;
      }
      Note(Send(me, to));
    }

    // The fork of a command that reads a user pipe changes nothing in the shared memory.
    ghost method Fork(me: nat, from: nat) returns (child: nat)
      requires Valid() && Enabled(state, SharedTable.Action.Fork(me, from))
      modifies this
      ensures Valid() && Took(old(state), old(run), SharedTable.Action.Fork(me, from))
      ensures child == |old(state).children| && state.children[child] == Child(me, from, None)
    {
      child := |state.children|;
      ApplySafe(state, SharedTable.Action.Fork(me, from));
      Note(SharedTable.Action.Fork(me, from));
    }

    // user_pipe_in, in the child.
    method UserPipeIn(ghost child: nat, me: nat, from: nat) returns (takes: bool)
      requires Valid() && Enabled(state, Test(child)) && IsChildOf(state.children[child], me, from)
      modifies this
      ensures Valid() && Took(old(state), old(run), Test(child))
      ensures takes == (state.children[child].seen != Some(0))
    {
      ApplySafe(state, Test(child));
      ChildInRange(state, child);
      takes := inId[me, from] != 0;
      Note(Test(child));
    }

    // user_pipe_parent, for the command whose input argument is `from`.
    method ClearReceived(me: nat, from: nat)
      requires Valid() && Enabled(state, Finish(me)) && state.receiving[me].from == from
      modifies this, record
      ensures Valid() && Took(old(state), old(run), Finish(me))
    {
      hide Safe, Apply, Mark, Possible, Run;
      ApplySafe(state, Finish(me));
      UsersInRange(state, me);
      ClearMarks(state, me, from);
      if inId[me, from] != 0 {
        record[from, me] := false;
      }
      Note(Finish(me));
    }

    // The loop that clears everything from and to a leaving user.
    method ClearRecords(me: nat)
      requires record.Length0 == 31 && record.Length1 == 31 && IsUser(me)
      modifies record
      ensures forall a: nat, b: nat :: IsUser(a) && IsUser(b) ==> record[a, b] == (old(record[a, b]) && a != me && b != me)
    {
      for i := 1 to 31
        invariant forall a: nat, b: nat :: IsUser(a) && IsUser(b) ==>
          record[a, b] == (old(record[a, b]) && !(a == me && b < i) && !(b == me && a < i))
      {
        record[me, i] := false;
        record[i, me] := false;
      }
    }

    // The section of `exit`, and of end of file on the user's socket.
    method Leave(me: nat)
      requires Valid() && Enabled(state, Exit(me))
      modifies this, available, record
      ensures Valid() && Took(old(state), old(run), Exit(me))
    {
      hide Safe, Apply, Mark, Possible, Run;
      ApplySafe(state, Exit(me));
      UsersInRange(state, me);
      LeaveMarks(state, me);
      available[me] := true;
      ClearRecords(me);
      Note(Exit(me));
    }
  }

  lemma CheckMarks(s: State, me: nat, from: nat)
    ensures var t := Apply(s, Check(me, from));
      && t.taken == s.taken && t.record == s.record
      && forall i, j :: Mark(t, i, j) == if i == me && j == from && Found(s, me, from).None? then 0 else Mark(s, i, j)
  {
  }

  lemma SendMarks(s: State, me: nat, to: nat)
    ensures var t := Apply(s, Send(me, to));
      && t.taken == s.taken && t.record.Keys == s.record.Keys + (if Accepts(s, me, to) then {(me, to)} else {})
      && forall i, j :: Mark(t, i, j) == if i == to && j == me && Accepts(s, me, to) then me else Mark(s, i, j)
  {
  }

  lemma ClearMarks(s: State, me: nat, from: nat)
    requires me in s.receiving && s.receiving[me].from == from
    ensures var t := Apply(s, Finish(me));
      && t.taken == s.taken && t.record.Keys == s.record.Keys - (if Mark(s, me, from) != 0 then {(from, me)} else {})
      && forall i, j :: Mark(t, i, j) == Mark(s, i, j)
  {
  }

  lemma ChildInRange(s: State, child: nat)
    requires Safe(s) && child < |s.children|
    ensures IsUser(s.children[child].me) && IsUser(s.children[child].from)
  {
    assert s.children[child] in s.children;
  }

  lemma LeaveMarks(s: State, me: nat)
    ensures var t := Apply(s, Exit(me));
      && t.taken == s.taken - {me}
      && (forall i, j :: (i, j) in t.record <==> (i, j) in s.record && i != me && j != me)
      && forall i, j :: Mark(t, i, j) == Mark(s, i, j)
  {
  }

  lemma UsersInRange(s: State, me: nat)
    requires Safe(s)
    ensures me in s.live ==> IsUser(me)
    ensures forall i :: i > 30 ==> i !in s.taken
    ensures me in s.receiving ==> me in s.live && IsUser(s.receiving[me].from)
  {
    assert forall i :: i in s.taken || i in s.live <==> i in s.taken + s.live;
  }
}
