/** What the shared table holds, told from the run that led to it: which sends were recorded, what has
    cleared them, and who has come and gone. */
module SharedHistory {
  import opened Outcomes
  import opened SharedTable

  // The state before step k of a run from the start.
  function At(run: seq<Action>, k: nat): State
    requires k <= |run|
  {
    Run(START, run[..k])
  }

  // Step k is a send that changed what is recorded.
  predicate Sent(run: seq<Action>, k: nat, from: nat, to: nat) {
    k < |run| && run[k] == Send(from, to) && At(run, k + 1).record != At(run, k).record
  }

  // At step k one of the two leaves, or the receiver's clearing comes with the mark set.
  predicate ClearedAt(run: seq<Action>, k: nat, from: nat, to: nat) {
    k < |run| && (
      || run[k] == Exit(from) || run[k] == Exit(to)
      || (run[k] == Finish(to) && to in At(run, k).receiving && At(run, k).receiving[to].from == from
          && Mark(At(run, k), to, from) != 0))
  }

  // The send of step j has been recorded and nothing has cleared it since.
  ghost predicate WaitsFrom(run: seq<Action>, j: nat, from: nat, to: nat) {
    Sent(run, j, from, to) && forall m: nat :: j < m ==> !ClearedAt(run, m, from, to)
  }

  ghost predicate WaitsIn(run: seq<Action>, from: nat, to: nat) {
    exists j :: WaitsFrom(run, j, from, to)
  }

  // ----- One more step ------------------------------------------------------------------------------------

  lemma AtSnoc(run: seq<Action>, k: nat)
    requires k < |run|
    ensures At(run[..|run|-1], k) == At(run, k)
    ensures At(run, |run|) == Run(START, run) == Apply(At(run, |run| - 1), run[|run|-1])
  {
    assert run[..|run|-1][..k] == run[..k] && run[..|run|] == run;
  }

  lemma EarlierSteps(run: seq<Action>, k: nat, from: nat, to: nat)
    requires k < |run| - 1
    ensures Sent(run, k, from, to) == Sent(run[..|run|-1], k, from, to)
    ensures ClearedAt(run, k, from, to) == ClearedAt(run[..|run|-1], k, from, to)
  {
    AtSnoc(run, k);
    AtSnoc(run, k + 1);
  }

  lemma WaitsFromSnoc(run: seq<Action>, j: nat, from: nat, to: nat)
    requires j < |run| - 1
    ensures WaitsFrom(run, j, from, to) <==> !ClearedAt(run, |run| - 1, from, to) && WaitsFrom(run[..|run|-1], j, from, to)
  {
    var n := |run| - 1;
    EarlierSteps(run, j, from, to);
    forall k: nat | k < n ensures ClearedAt(run, k, from, to) == ClearedAt(run[..n], k, from, to) {
      EarlierSteps(run, k, from, to);
    }
    OutOfRun(run, from, to);
    OutOfRun(run[..n], from, to);
    hide Sent, ClearedAt;
  }

  lemma WaitsSnoc(run: seq<Action>, from: nat, to: nat)
    requires run != []
    ensures var n := |run| - 1;
      WaitsIn(run, from, to) <==>
      Sent(run, n, from, to) || (!ClearedAt(run, n, from, to) && WaitsIn(run[..n], from, to))
  {
    var n := |run| - 1;
    forall j: nat | j < n
      ensures WaitsFrom(run, j, from, to) <==> !ClearedAt(run, n, from, to) && WaitsFrom(run[..n], j, from, to)
    {
      WaitsFromSnoc(run, j, from, to);
    }
    OutOfRun(run, from, to);
    OutOfRun(run[..n], from, to);
    assert WaitsFrom(run, n, from, to) <==> Sent(run, n, from, to);
    assert forall j: nat :: WaitsFrom(run, j, from, to) ==> j <= n;
    assert forall j: nat :: WaitsFrom(run[..n], j, from, to) ==> j < n;
    hide WaitsFrom, Sent, ClearedAt;
    if j :| WaitsFrom(run, j, from, to) {
      assert j == n || WaitsFrom(run[..n], j, from, to);
    }
    if j :| WaitsFrom(run[..n], j, from, to) && !ClearedAt(run, n, from, to) {
      assert WaitsFrom(run, j, from, to);
    }
  }

  lemma OutOfRun(run: seq<Action>, from: nat, to: nat)
    ensures forall k: nat :: k >= |run| ==> !Sent(run, k, from, to) && !ClearedAt(run, k, from, to)
  {
  }

  // What one step does to the record of a pair.
  lemma RecordStep(s: State, a: Action, from: nat, to: nat)
    requires Safe(s) && Enabled(s, a)
    ensures (from, to) in Apply(s, a).record <==>
      || (a == Send(from, to) && Apply(s, a).record != s.record)
      || ((from, to) in s.record && a != Exit(from) && a != Exit(to)
          && !(a == Finish(to) && s.receiving[to].from == from && Mark(s, to, from) != 0))
  {
    if a.Finish? && a.me in s.receiving && (s.receiving[a.me].from, a.me) == (from, to) && Mark(s, to, from) != 0 {
      assert (from, to) !in Apply(s, a).record;
    }
  }

  // Main result: under every interleaving a pipe is recorded if and only if a send of that pair was
  // recorded, and since then neither has left and no clearing of the receiver has met its mark.
  lemma {:induction false} RecordIs(run: seq<Action>, from: nat, to: nat)
    requires Possible(START, run)
    ensures (from, to) in Run(START, run).record <==> WaitsIn(run, from, to)
  {
    if run == [] {
      OutOfRun(run, from, to);
    } else {
      var n := |run| - 1;
      RecordIs(run[..n], from, to);
      RunSafe(START, run[..n]);
      AtSnoc(run, n);
      WaitsSnoc(run, from, to);
      RecordStep(At(run, n), run[n], from, to);
    }
  }

  // Main result: a send is recorded if and only if the receiver's slot is taken and no earlier one of
  // the same pair still waits; pipes of other pairs, the answering one among them, do not matter.
  lemma SentIff(run: seq<Action>, from: nat, to: nat)
    requires Possible(START, run + [Send(from, to)])
    ensures Sent(run + [Send(from, to)], |run|, from, to) <==> to in Run(START, run).taken && !WaitsIn(run, from, to)
  {
    var longer := run + [Send(from, to)];
    assert longer[..|run|] == run && longer[..|longer|] == longer;
    RecordIs(run, from, to);
    AcceptedIsNew(Run(START, run), from, to);
  }

  lemma AcceptedIsNew(s: State, from: nat, to: nat)
    ensures Apply(s, Send(from, to)).record != s.record <==> to in s.taken && (from, to) !in s.record
  {
    if to in s.taken && (from, to) !in s.record { assert (from, to) in Apply(s, Send(from, to)).record; }
  }

  // A check finds a pipe if and only if the sender's slot is taken and a pipe waits.
  lemma FoundIff(run: seq<Action>, me: nat, from: nat)
    requires Possible(START, run + [Check(me, from)])
    ensures var t := Run(START, run + [Check(me, from)]);
      && me in t.receiving && t.receiving[me].from == from
      && (t.receiving[me].found.Some? <==> from in Run(START, run).taken && WaitsIn(run, from, me))
  {
    assert (run + [Check(me, from)])[..|run|] == run;
    RecordIs(run, from, me);
  }

  // Step k is a check of the receiver that found nothing.
  predicate FoundNothing(run: seq<Action>, k: nat, from: nat, me: nat) {
    k < |run| && run[k] == Check(me, from) && me in At(run, k + 1).receiving && At(run, k + 1).receiving[me].found.None?
  }

  // The send of step k has been recorded and no check has found nothing since.
  ghost predicate MarkedAt(run: seq<Action>, k: nat, from: nat, me: nat) {
    Sent(run, k, from, me) && forall j: nat :: j > k ==> !FoundNothing(run, j, from, me)
  }

  ghost predicate SentLast(run: seq<Action>, from: nat, me: nat) {
    exists k :: MarkedAt(run, k, from, me)
  }

  // The mark is set if and only if the last recorded send is after the last check that found nothing.
  lemma {:induction false} MarkIsHistory(run: seq<Action>, from: nat, me: nat)
    requires Possible(START, run) && from != 0
    ensures Mark(Run(START, run), me, from) != 0 <==> SentLast(run, from, me)
  {
    OutOfRun(run, from, me);
    if run != [] {
      var n := |run| - 1;
      MarkIsHistory(run[..n], from, me);
      AtSnoc(run, n);
      SentLastSnoc(run, from, me);
      MarkHistoryStep(At(run, n), run[n], from, me);
    }
  }

  lemma MarkHistoryStep(s: State, a: Action, from: nat, me: nat)
    requires Enabled(s, a) && from != 0
    ensures var t := Apply(s, a);
      Mark(t, me, from) != 0 <==>
      || (a == Send(from, me) && t.record != s.record)
      || (Mark(s, me, from) != 0 && !(a == Check(me, from) && me in t.receiving && t.receiving[me].found.None?))
  {
    MarkStep(s, a, from, me);
    AcceptedIsNew(s, from, me);
  }

  lemma MarkedSnoc(run: seq<Action>, k: nat, from: nat, me: nat)
    requires k < |run| - 1
    ensures MarkedAt(run, k, from, me) <==> !FoundNothing(run, |run| - 1, from, me) && MarkedAt(run[..|run|-1], k, from, me)
  {
    var n := |run| - 1;
    EarlierSteps(run, k, from, me);
    forall j: nat | j < n ensures FoundNothing(run, j, from, me) == FoundNothing(run[..n], j, from, me) {
      AtSnoc(run, j + 1);
    }
    CheckedInRun(run, from, me);
    CheckedInRun(run[..n], from, me);
    hide Sent, FoundNothing;
  }

  lemma CheckedInRun(run: seq<Action>, from: nat, me: nat)
    ensures forall k: nat :: k >= |run| ==> !FoundNothing(run, k, from, me)
  {
  }

  lemma SentLastSnoc(run: seq<Action>, from: nat, me: nat)
    requires run != []
    ensures var n := |run| - 1;
      SentLast(run, from, me) <==>
      Sent(run, n, from, me) || (!FoundNothing(run, n, from, me) && SentLast(run[..n], from, me))
  {
    var n := |run| - 1;
    forall k: nat | k < n
      ensures MarkedAt(run, k, from, me) <==> !FoundNothing(run, n, from, me) && MarkedAt(run[..n], k, from, me)
    {
      MarkedSnoc(run, k, from, me);
    }
    OutOfRun(run, from, me);
    OutOfRun(run[..n], from, me);
    CheckedInRun(run, from, me);
    assert MarkedAt(run, n, from, me) <==> Sent(run, n, from, me);
    assert forall k: nat :: MarkedAt(run, k, from, me) ==> k <= n;
    assert forall k: nat :: MarkedAt(run[..n], k, from, me) ==> k < n;
    hide MarkedAt, Sent, FoundNothing;
    if k :| MarkedAt(run, k, from, me) {
      assert k == n || MarkedAt(run[..n], k, from, me);
    }
    if k :| MarkedAt(run[..n], k, from, me) && !FoundNothing(run, n, from, me) {
      assert MarkedAt(run, k, from, me);
    }
  }

  // ----- Who is there ---------------------------------------------------------------------------------------

  // Step k marks slot i taken; step k starts the process of user i.
  predicate AdmittedAt(run: seq<Action>, k: nat, i: nat) {
    k < |run| && run[k] == Admit && At(run, k).picked == Some(i)
  }

  predicate StartedAt(run: seq<Action>, k: nat, i: nat) {
    k < |run| && run[k] == Pick && At(run, k + 1).picked == Some(i)
  }

  ghost predicate AdmittedSince(run: seq<Action>, i: nat) {
    exists k: nat :: AdmittedAt(run, k, i) && Exit(i) !in run[k..]
  }

  ghost predicate StartedSince(run: seq<Action>, i: nat) {
    exists k: nat :: StartedAt(run, k, i) && Exit(i) !in run[k..]
  }

  // A slot is taken, and its user there, exactly from the one step or the other until the user leaves.
  lemma {:induction false} ThereIff(run: seq<Action>, i: nat)
    requires Possible(START, run)
    ensures i in Run(START, run).taken <==> AdmittedSince(run, i)
    ensures i in Run(START, run).live <==> StartedSince(run, i)
  {
    if run != [] {
      var n := |run| - 1;
      ThereIff(run[..n], i);
      AtSnoc(run, n);
      AdmittedSnoc(run, i);
      StartedSnoc(run, i);
    }
  }

  lemma AdmittedSnoc(run: seq<Action>, i: nat)
    requires run != []
    ensures var n := |run| - 1;
      AdmittedSince(run, i) <==> AdmittedAt(run, n, i) || (run[n] != Exit(i) && AdmittedSince(run[..n], i))
  {
    var n := |run| - 1;
    forall k: nat | k < n
      ensures AdmittedAt(run, k, i) == AdmittedAt(run[..n], k, i)
      ensures Exit(i) in run[k..] <==> Exit(i) in run[..n][k..] || run[n] == Exit(i)
    {
      AtSnoc(run, k);
      assert run[k..] == run[..n][k..] + [run[n]];
    }
    assert run[n..] == [run[n]];
    if k: nat :| AdmittedAt(run, k, i) && Exit(i) !in run[k..] {
      assert k == n || (AdmittedAt(run[..n], k, i) && Exit(i) !in run[..n][k..]);
    }
    if run[n] != Exit(i) && AdmittedSince(run[..n], i) {
      var k: nat :| AdmittedAt(run[..n], k, i) && Exit(i) !in run[..n][k..];
      assert AdmittedAt(run, k, i) && Exit(i) !in run[k..];
    }
    if AdmittedAt(run, n, i) { assert Exit(i) !in run[n..]; }
  }

  lemma StartedSnoc(run: seq<Action>, i: nat)
    requires run != []
    ensures var n := |run| - 1;
      StartedSince(run, i) <==> StartedAt(run, n, i) || (run[n] != Exit(i) && StartedSince(run[..n], i))
  {
    var n := |run| - 1;
    forall k: nat | k < n
      ensures StartedAt(run, k, i) == StartedAt(run[..n], k, i)
      ensures Exit(i) in run[k..] <==> Exit(i) in run[..n][k..] || run[n] == Exit(i)
    {
      AtSnoc(run, k + 1);
      assert run[k..] == run[..n][k..] + [run[n]];
    }
    assert run[n..] == [run[n]];
    if k: nat :| StartedAt(run, k, i) && Exit(i) !in run[k..] {
      assert k == n || (StartedAt(run[..n], k, i) && Exit(i) !in run[..n][k..]);
    }
    if run[n] != Exit(i) && StartedSince(run[..n], i) {
      var k: nat :| StartedAt(run[..n], k, i) && Exit(i) !in run[..n][k..];
      assert StartedAt(run, k, i) && Exit(i) !in run[k..];
    }
    if StartedAt(run, n, i) { assert Exit(i) !in run[n..]; }
  }
}
