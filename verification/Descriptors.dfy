/** Descriptor tables and the system calls that change them. */
module Descriptors {
  import opened Engine

  type Table = map<nat, End>

  datatype FdPair = FdPair(read: nat, write: nat)

  predicate Standard(t: Table) {
    0 in t && 1 in t && 2 in t
  }

  // Everything held above the three standard descriptors.
  function Rest(t: Table): set<End> {
    set f | f in t && f > 2 :: t[f]
  }

  // Above the standard descriptors the table holds what the process started with, both ends of
  // exactly the pipes in `pairs` on the descriptors named there, and /dev/null on those in `nulls`.
  ghost predicate Accounts(t: Table, base: Table, pairs: map<nat, FdPair>, nulls: set<nat>) {
    && (forall f :: f in base && f > 2 ==> f in t && t[f] == base[f])
    && (forall f :: f in t && f > 2 && f !in base ==>
          match t[f]
          case ReadEnd(p) => p in pairs && pairs[p].read == f
          case WriteEnd(p) => p in pairs && pairs[p].write == f
          case DevNull => f in nulls
          case _ => false)
    && (forall p :: p in pairs ==> Opened(t, base, p, pairs[p]))
    && (forall f :: f in nulls ==> f > 2 && f !in base && f in t && t[f] == DevNull)
  }

  ghost predicate Opened(t: Table, base: Table, p: nat, pair: FdPair) {
    && pair.read > 2 && pair.read !in base && pair.read in t && t[pair.read] == ReadEnd(p)
    && pair.write > 2 && pair.write !in base && pair.write in t && t[pair.write] == WriteEnd(p)
  }

  // POSIX gives out the lowest descriptor that is not open.
  function LeastFree(t: Table): (fd: nat)
    ensures fd !in t && forall g: nat :: g < fd ==> g in t
  {
    LeastFrom(t.Keys, t.Keys, 0)
  }

  // The search from k on; `above` are the open descriptors not yet passed.
  function LeastFrom(used: set<nat>, above: set<nat>, k: nat): (fd: nat)
    requires forall g: nat :: g < k ==> g in used
    requires forall g: nat :: g in used && k <= g ==> g in above
    ensures fd !in used && forall g: nat :: g < fd ==> g in used
    decreases |above|
  {
    if k !in used then k else LeastFrom(used, above - {k}, k + 1)
  }

  // dup2 the read end onto standard input and close both originals.
  function InputFrom(t: Table, pair: FdPair): Table
    requires pair.read in t
  {
    (t - {pair.read, pair.write})[0 := t[pair.read]]
  }

  // dup2 the write end onto standard output, and standard error if asked, and close both originals.
  function OutputTo(t: Table, pair: FdPair, stderrToo: bool): Table
    requires pair.write in t
  {
    var u := (t - {pair.read, pair.write})[1 := t[pair.write]];
    if stderrToo then u[2 := t[pair.write]] else u
  }

  lemma InputAccounts(t: Table, base: Table, pairs: map<nat, FdPair>, nulls: set<nat>, p: nat)
    requires Standard(t) && Accounts(t, base, pairs, nulls) && p in pairs
    ensures var u := InputFrom(t, pairs[p]);
      && Standard(u) && Accounts(u, base, pairs - {p}, nulls)
      && u[0] == ReadEnd(p) && u[1] == t[1] && u[2] == t[2]
  {
    assert Opened(t, base, p, pairs[p]);
    forall q | q in pairs - {p} ensures Opened(InputFrom(t, pairs[p]), base, q, pairs[q]) {
      assert Opened(t, base, q, pairs[q]);
    }
  }

  lemma OutputAccounts(t: Table, base: Table, pairs: map<nat, FdPair>, nulls: set<nat>, p: nat, stderrToo: bool)
    requires Standard(t) && Accounts(t, base, pairs, nulls) && p in pairs
    ensures var u := OutputTo(t, pairs[p], stderrToo);
      && Standard(u) && Accounts(u, base, pairs - {p}, nulls)
      && u[0] == t[0] && u[1] == WriteEnd(p) && u[2] == if stderrToo then WriteEnd(p) else t[2]
  {
    assert Opened(t, base, p, pairs[p]);
    forall q | q in pairs - {p} ensures Opened(OutputTo(t, pairs[p], stderrToo), base, q, pairs[q]) {
      assert Opened(t, base, q, pairs[q]);
    }
  }

  lemma CloseAccounts(t: Table, base: Table, pairs: map<nat, FdPair>, nulls: set<nat>, p: nat)
    requires Standard(t) && Accounts(t, base, pairs, nulls) && p in pairs
    ensures var u := t - {pairs[p].read, pairs[p].write};
      && Standard(u) && Accounts(u, base, pairs - {p}, nulls)
      && u[0] == t[0] && u[1] == t[1] && u[2] == t[2]
  {
    assert Opened(t, base, p, pairs[p]);
    forall q | q in pairs - {p} ensures Opened(t - {pairs[p].read, pairs[p].write}, base, q, pairs[q]) {
      assert Opened(t, base, q, pairs[q]);
    }
  }

  // A /dev/null descriptor put on a standard descriptor `slot` and closed.
  lemma NullAccounts(t: Table, base: Table, pairs: map<nat, FdPair>, nulls: set<nat>, f: nat, slot: nat)
    requires Standard(t) && Accounts(t, base, pairs, nulls) && f in nulls && slot < 3
    ensures Standard((t - {f})[slot := DevNull]) && Accounts((t - {f})[slot := DevNull], base, pairs, nulls - {f})
    ensures Standard(t - {f}) && Accounts(t - {f}, base, pairs, nulls - {f})
  {
    forall q | q in pairs ensures Opened((t - {f})[slot := DevNull], base, q, pairs[q]) && Opened(t - {f}, base, q, pairs[q]) {
      assert Opened(t, base, q, pairs[q]);
    }
  }

  lemma OpenNullAccounts(t: Table, base: Table, pairs: map<nat, FdPair>, nulls: set<nat>, f: nat)
    requires Standard(t) && Accounts(t, base, pairs, nulls) && f !in t
    ensures Standard(t[f := DevNull]) && Accounts(t[f := DevNull], base, pairs, nulls + {f})
  {
    forall q | q in pairs ensures Opened(t[f := DevNull], base, q, pairs[q]) {
      assert Opened(t, base, q, pairs[q]);
    }
  }

  lemma PipeAccounts(t: Table, base: Table, pairs: map<nat, FdPair>, nulls: set<nat>, p: nat, pair: FdPair)
    requires Standard(t) && Accounts(t, base, pairs, nulls) && p !in pairs
    requires pair.read !in t && pair.write !in t && pair.read != pair.write
    ensures var u := t[pair.read := ReadEnd(p)][pair.write := WriteEnd(p)];
      && Standard(u) && Accounts(u, base, pairs[p := pair], nulls)
      && u[0] == t[0] && u[1] == t[1] && u[2] == t[2]
  {
    forall q | q in pairs ensures Opened(t[pair.read := ReadEnd(p)][pair.write := WriteEnd(p)], base, q, pairs[q]) {
      assert Opened(t, base, q, pairs[q]);
    }
  }

  lemma AccountsRest(t: Table, base: Table, pairs: map<nat, FdPair>)
    requires Accounts(t, base, pairs, {})
    ensures Rest(t) == Rest(base) + BothEnds(pairs.Keys)
  {
    forall e | e in Rest(base) + BothEnds(pairs.Keys) ensures e in Rest(t) {
      if e in Rest(base) {
        var f :| f in base && f > 2 && base[f] == e;
        assert t[f] == e;
      } else {
        assert Opened(t, base, e.pipe, pairs[e.pipe]);
      }
    }
    forall e | e in Rest(t) ensures e in Rest(base) + BothEnds(pairs.Keys) {
      var f :| f in t && f > 2 && t[f] == e;
    }
  }

  // A process, as far as its descriptors go. Closing or copying a descriptor that is not open is an
  // error, and the preconditions rule it out.
  class Process {
    var fds: Table

    // fork: the child starts with a copy of the parent's table.
    constructor Fork(parent: Table)
      ensures fds == parent
    {
      fds := parent;
    }

    method Close(fd: nat)
      requires fd in fds
      modifies this
      ensures fds == old(fds) - {fd}
    {
      fds := fds - {fd};
    }

    // close and dup2 where the code may name a descriptor that is already closed: they fail and
    // change nothing.
    method TryClose(fd: nat)
      modifies this
      ensures fds == old(fds) - {fd}
    {
      fds := fds - {fd};
    }

    method TryDup2(from: nat, to: nat)
      modifies this
      ensures fds == if from in old(fds) then old(fds)[to := old(fds)[from]] else old(fds)
    {
      if from in fds {
        fds := fds[to := fds[from]];
      }
    }

    method Dup2(from: nat, to: nat)
      requires from in fds
      modifies this
      ensures fds == old(fds)[to := old(fds)[from]]
    {
      fds := fds[to := fds[from]];
    }

    // Opens the least free descriptor on e.
    method Open(e: End) returns (fd: nat)
      modifies this
      ensures fd !in old(fds) && (forall g: nat :: g < fd ==> g in old(fds))
      ensures fds == old(fds)[fd := e]
    {
      fd := LeastFree(fds);
      fds := fds[fd := e];
    }

    method Pipe(id: nat) returns (pair: FdPair)
      modifies this
      ensures pair.read !in old(fds) && pair.write !in old(fds) && pair.read != pair.write
      ensures fds == old(fds)[pair.read := ReadEnd(id)][pair.write := WriteEnd(id)]
    {
      var r := Open(ReadEnd(id));
      var w := Open(WriteEnd(id));
      pair := FdPair(r, w);
    }
  }
}
