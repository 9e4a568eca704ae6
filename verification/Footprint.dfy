/** How many descriptors the shell keeps open. */
module Footprint {
  import opened Commands
  import opened Descriptors
  import opened Engine
  import opened Ownership
  import opened ShellProcess

  lemma CloseTwo(t: Table, r: nat, w: nat)
    requires r in t && w in t && r != w
    ensures |t - {r, w}| == |t| - 2
  {
    var u := t - {r, w};
    assert t.Keys == u.Keys + {r} + {w};
    assert |t| == |t.Keys| && |u| == |u.Keys|;
  }

  lemma NoPairs(t: Table, base: Table)
    requires Standard(t) && Standard(base) && Accounts(t, base, map[], {})
    ensures |t| == |base|
  {
    assert t.Keys == base.Keys;
    assert |t| == |t.Keys| && |base| == |base.Keys|;
  }

  lemma PairIsTwo(t: Table, base: Table, pairs: map<nat, FdPair>, p: nat)
    requires Standard(t) && Accounts(t, base, pairs, {}) && p in pairs
    ensures var r, w := pairs[p].read, pairs[p].write; r in t && w in t && r != w
  {
    assert Opened(t, base, p, pairs[p]);
  }

  lemma {:induction false} CountAccounts(t: Table, base: Table, pairs: map<nat, FdPair>)
    requires Standard(t) && Standard(base) && Accounts(t, base, pairs, {})
    ensures |t| == |base| + 2 * |pairs|
    decreases |pairs|
  {
    hide Accounts, Standard;
    if pairs == map[] {
      NoPairs(t, base);
    } else {
      var p :| p in pairs;
      var fewer := pairs - {p};
      PairIsTwo(t, base, pairs, p);
      CloseAccounts(t, base, pairs, {}, p);
      CloseTwo(t, pairs[p].read, pairs[p].write);
      assert pairs == fewer[p := pairs[p]];
      CountAccounts(t - {pairs[p].read, pairs[p].write}, base, fewer);
    }
  }

  lemma {:induction false} CountValues(m: map<nat, nat>)
    requires forall i, j :: i in m && j in m && m[i] == m[j] ==> i == j
    ensures |m.Values| == |m|
    decreases |m|
  {
    if m != map[] {
      var k :| k in m;
      CountValues(m - {k});
      ValuesWithout(m, k);
      assert m == (m - {k})[k := m[k]];
      assert m.Values == (m - {k}).Values + {m[k]};
    }
  }

  // Between lines the shell holds its initial descriptors and two for each pending pipe, so at most
  // two for each line that a number can reach.
  lemma DescriptorsHeld(shell: Shell, cs: seq<Command>, bound: nat)
    requires shell.Valid() && Linked(cs) && Reach(cs, bound)
    requires shell.session == Run(shell.TheHost(), START, cs)
    ensures |shell.process.fds| == |shell.init| + 2 * |shell.session.pending|
    ensures |shell.process.fds| <= |shell.init| + 2 * bound
  {
    hide Run, Slots, Accounts, AllMatch;
    PendingLifetime(shell.TheHost(), cs, bound);
    CountAccounts(shell.process.fds, shell.init, shell.pairs);
    CountValues(shell.session.pending);
    assert OpenPipes(shell.session) == shell.session.pending.Values;
    assert |shell.pairs| == |shell.pairs.Keys|;
  }
}
