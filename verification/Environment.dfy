/** The environments of the single-process server: every user has a list of variables that is put
    into the one process environment before the user's turn and taken out after it. */
module Environment {
  import opened Outcomes

  type Env = map<string, string>

  datatype Variable = Variable(name: string, value: string)

  // Why a turn is taken: the three kinds of line that matter here. Anything else runs with the
  // environment as it stands and cannot change it.
  datatype Request = SetEnv(name: string, value: string) | PrintEnv(name: string) | Exit | Other

  // setenv refuses an empty name and one with an equals sign.
  predicate Settable(name: string) {
    name != [] && '=' !in name
  }

  function Names(list: seq<Variable>): set<string> {
    set i | 0 <= i < |list| :: list[i].name
  }

  // The value of the last entry for a name.
  function LastValue(list: seq<Variable>, name: string): Option<string> {
    if list == [] then None
    else if list[|list|-1].name == name then Some(list[|list|-1].value)
    else LastValue(list[..|list|-1], name)
  }

  function Lookup(env: Env, name: string): Option<string> {
    if name in env then Some(env[name]) else None
  }

  // setenv for every entry, in order.
  function Overlay(env: Env, list: seq<Variable>): Env {
    if list == [] then env else Overlay(env, list[..|list|-1])[list[|list|-1].name := list[|list|-1].value]
  }

  lemma {:induction false} NamesHaveValues(list: seq<Variable>, name: string)
    ensures name in Names(list) <==> LastValue(list, name).Some?
  {
    if list != [] {
      var n := |list| - 1;
      NamesHaveValues(list[..n], name);
      assert list[n].name in Names(list);
      if name in Names(list[..n]) {
        var i :| 0 <= i < n && list[..n][i].name == name;
        assert list[i].name == name;
      }
      if name in Names(list) && name != list[n].name {
        var i :| 0 <= i < |list| && list[i].name == name;
        assert list[..n][i].name == name;
      }
    }
  }

  // Looking a name up after the overlay gives the last value listed for it, else what was there.
  lemma {:induction false} OverlayLookup(env: Env, list: seq<Variable>, name: string)
    ensures Lookup(Overlay(env, list), name) == if LastValue(list, name).Some? then LastValue(list, name) else Lookup(env, name)
  {
    if list != [] { OverlayLookup(env, list[..|list|-1], name); }
  }

  // Taking the listed names out again leaves what was there, less those names.
  lemma OverlayRemoved(env: Env, list: seq<Variable>)
    ensures Overlay(env, list) - Names(list) == env - Names(list)
  {
    forall name ensures Lookup(Overlay(env, list) - Names(list), name) == Lookup(env - Names(list), name) {
      OverlayLookup(env, list, name);
      NamesHaveValues(list, name);
    }
    SameLookups(Overlay(env, list) - Names(list), env - Names(list));
  }

  lemma SameLookups(a: Env, b: Env)
    requires forall name :: Lookup(a, name) == Lookup(b, name)
    ensures a == b
  {
    forall name ensures name in a <==> name in b { assert Lookup(a, name) == Lookup(b, name); }
    forall name | name in a ensures a[name] == b[name] { assert Lookup(a, name) == Lookup(b, name); }
  }

  // A user's view during a turn: the own last value, else the initial value if no user whose turn has
  // passed ever listed the name, else nothing.
  function View(initial: Env, removed: set<string>, own: seq<Variable>, name: string): Option<string> {
    if LastValue(own, name).Some? then LastValue(own, name)
    else if name in removed then None
    else Lookup(initial, name)
  }

  lemma ViewIsOverlay(initial: Env, removed: set<string>, own: seq<Variable>, name: string)
    ensures Lookup(Overlay(initial - removed, own), name) == View(initial, removed, own, name)
  {
    OverlayLookup(initial - removed, own, name);
  }

  // ----- What the turns so far say ----------------------------------------------------------------------------

  // What has happened: users came, and took turns.
  datatype Past = Came(id: nat) | Took(id: nat, request: Request)

  // At step k that user set the name; an empty name or one with an equals sign is refused.
  predicate SetAt(past: seq<Past>, k: nat, id: nat, name: string, value: string) {
    k < |past| && past[k] == Took(id, SetEnv(name, value)) && name != "" && '=' !in name
  }

  // The user has come again, or set the name again.
  predicate Over(past: seq<Past>, k: nat, id: nat, name: string) {
    k < |past| && past[k].id == id &&
    (past[k].Came? || (past[k].request.SetEnv? && past[k].request.name == name))
  }

  // The value is the last one that the user has set the name to since coming.
  ghost predicate LastSet(past: seq<Past>, id: nat, name: string, value: string) {
    exists k: nat :: SetAt(past, k, id, name, value) && forall m: nat :: m > k ==> !Over(past, m, id, name)
  }

  ghost predicate EverSet(past: seq<Past>, name: string) {
    exists k: nat, id, value :: SetAt(past, k, id, name, value)
  }

  // The name has been in the list of a user who has had a turn.
  ghost predicate Gone(past: seq<Past>, name: string) {
    EverSet(past, name) || (name == "PATH" && exists k :: 0 <= k < |past| && past[k].Took?)
  }

  // What a lookup in a turn of that user gives.
  ghost predicate Sees(initial: Env, past: seq<Past>, id: nat, name: string, found: Option<string>) {
    && (forall value :: LastSet(past, id, name, value) ==> found == Some(value))
    && ((forall value :: !LastSet(past, id, name, value)) ==>
          found == if name == "PATH" then Some("bin:.") else if EverSet(past, name) then None else Lookup(initial, name))
  }

  // The user's list, by the turns.
  function ListOf(past: seq<Past>, id: nat): seq<Variable> {
    if past == [] then []
    else
      var last, before := past[|past|-1], ListOf(past[..|past|-1], id);
      if last.id != id then before
      else if last.Came? then [Variable("PATH", "bin:.")]
      else before + Added(last.request)
  }

  lemma SetSnoc(past: seq<Past>, e: Past, id: nat, name: string, value: string)
    ensures LastSet(past + [e], id, name, value) <==>
      SetAt(past + [e], |past|, id, name, value) || (!Over(past + [e], |past|, id, name) && LastSet(past, id, name, value))
  {
    var longer := past + [e];
    assert forall k: nat :: k < |past| ==> longer[k] == past[k];
    assert forall k: nat :: k < |past| ==> (SetAt(longer, k, id, name, value) <==> SetAt(past, k, id, name, value));
    assert forall k: nat :: k < |past| ==> (Over(longer, k, id, name) <==> Over(past, k, id, name));
    if LastSet(past, id, name, value) && !Over(longer, |past|, id, name) {
      var k: nat :| SetAt(past, k, id, name, value) && forall m: nat :: m > k ==> !Over(past, m, id, name);
      assert SetAt(longer, k, id, name, value);
    }
    if LastSet(longer, id, name, value) {
      var k: nat :| SetAt(longer, k, id, name, value) && forall m: nat :: m > k ==> !Over(longer, m, id, name);
      if k < |past| { assert SetAt(past, k, id, name, value); }
    }
  }

  lemma OneMoreListed(past: seq<Past>, e: Past, id: nat, name: string)
    ensures LastValue(ListOf(past + [e], id), name) ==
      if e == Came(id) then (if name == "PATH" then Some("bin:.") else None)
      else if e.Took? && e.id == id && e.request.SetEnv? && e.request.name == name && Settable(name) then Some(e.request.value)
      else LastValue(ListOf(past, id), name)
  {
    assert (past + [e])[..|past|] == past;
    if e == Came(id) {
      assert [] + [Variable("PATH", "bin:.")] == [Variable("PATH", "bin:.")];
      LastOfMore([], [Variable("PATH", "bin:.")], name);
    } else if e.Took? && e.id == id {
      LastOfMore(ListOf(past, id), Added(e.request), name);
    }
  }

  lemma OnlySettable(past: seq<Past>, id: nat, name: string, value: string)
    requires LastSet(past, id, name, value)
    ensures Settable(name)
  {
  }

  lemma SetOrOver(past: seq<Past>, e: Past, id: nat, name: string, value: string)
    ensures SetAt(past + [e], |past|, id, name, value) <==> e == Took(id, SetEnv(name, value)) && Settable(name)
    ensures Over(past + [e], |past|, id, name) <==>
      e == Came(id) || (e.Took? && e.id == id && e.request.SetEnv? && e.request.name == name)
  {
  }

  // The last value in the list is the last one that was set; only PATH is there from the start.
  lemma {:induction false} ListTells(past: seq<Past>, id: nat, name: string, value: string)
    ensures LastSet(past, id, name, value) ==> LastValue(ListOf(past, id), name) == Some(value)
    ensures LastValue(ListOf(past, id), name) == Some(value) ==> LastSet(past, id, name, value) || (name == "PATH" && value == "bin:.")
  {
    if past != [] {
      var before, e := past[..|past|-1], past[|past|-1];
      assert past == before + [e];
      ListTells(before, id, name, value);
      SetSnoc(before, e, id, name, value);
      SetOrOver(before, e, id, name, value);
      OneMoreListed(before, e, id, name);
      if LastSet(before, id, name, value) { OnlySettable(before, id, name, value); }
      hide LastSet, LastValue, ListOf, SetAt, Over, Settable;
    }
  }

  // A user who has come always finds PATH.
  lemma {:induction false} PathIsListed(past: seq<Past>, id: nat)
    requires HasCome(past, id)
    ensures LastValue(ListOf(past, id), "PATH").Some?
  {
    var before, e := past[..|past|-1], past[|past|-1];
    LastOfMore(ListOf(before, id), if e.Took? then Added(e.request) else [], "PATH");
    if e != Came(id) {
      assert past == before + [e];
      ComeSnoc(before, e, id);
      PathIsListed(before, id);
    }
  }

  // The names that some turn has set.
  lemma EverSetSnoc(past: seq<Past>, e: Past, name: string)
    ensures EverSet(past + [e], name) <==>
      EverSet(past, name) || (e.Took? && e.request.SetEnv? && e.request.name == name && name != "" && '=' !in name)
  {
    var longer := past + [e];
    assert forall k: nat, id, value :: k < |past| ==> (SetAt(longer, k, id, name, value) <==> SetAt(past, k, id, name, value));
    if e.Took? && e.request.SetEnv? && e.request.name == name && name != "" && '=' !in name {
      assert SetAt(longer, |past|, e.id, name, e.request.value);
    }
    if k: nat, id, value :| SetAt(past, k, id, name, value) {
      assert SetAt(longer, k, id, name, value);
    }
    if k: nat, id, value :| SetAt(longer, k, id, name, value) {
      assert k == |past| || SetAt(past, k, id, name, value);
    }
  }

  // A name in somebody's list is PATH or has been set.
  lemma {:induction false} ListedIsSet(past: seq<Past>, id: nat, name: string)
    requires name in Names(ListOf(past, id)) && name != "PATH"
    ensures EverSet(past, name)
  {
    NamesHaveValues(ListOf(past, id), name);
    var value := LastValue(ListOf(past, id), name).value;
    ListTells(past, id, name, value);
    var k: nat :| SetAt(past, k, id, name, value);
  }

  lemma LastOfMore(list: seq<Variable>, more: seq<Variable>, name: string)
    requires |more| <= 1
    ensures LastValue(list + more, name) == if more != [] && more[0].name == name then Some(more[0].value) else LastValue(list, name)
  {
    if more == [] { assert list + more == list; } else { assert (list + more)[..|list|] == list; }
  }

  // The lists are what the turns say, and so are the names taken out of the environment.
  ghost predicate Told(past: seq<Past>, lists: map<nat, seq<Variable>>, removed: set<string>) {
    && (forall id :: id in lists ==> HasCome(past, id) && lists[id] == ListOf(past, id))
    && (forall name :: name in removed <==> Gone(past, name))
  }

  ghost predicate HasCome(past: seq<Past>, id: nat) {
    exists k :: 0 <= k < |past| && past[k] == Came(id)
  }

  lemma ComeSnoc(past: seq<Past>, e: Past, id: nat)
    ensures HasCome(past + [e], id) <==> HasCome(past, id) || e == Came(id)
  {
    var longer := past + [e];
    if HasCome(past, id) {
      var k :| 0 <= k < |past| && past[k] == Came(id);
      assert longer[k] == Came(id);
    }
    if e == Came(id) { assert longer[|past|] == Came(id); }
  }

  lemma GoneSnoc(past: seq<Past>, e: Past, name: string)
    ensures Gone(past + [e], name) <==>
      || Gone(past, name) || (e.Took? && name == "PATH")
      || (e.Took? && e.request.SetEnv? && e.request.name == name && Settable(name))
  {
    var longer := past + [e];
    EverSetSnoc(past, e, name);
    if k :| 0 <= k < |past| && past[k].Took? { assert longer[k].Took?; }
    if e.Took? { assert longer[|past|].Took?; }
    if k :| 0 <= k < |longer| && longer[k].Took? { assert k == |past| || past[k].Took?; }
  }

  lemma CameMeans(past: seq<Past>, lists: map<nat, seq<Variable>>, removed: set<string>, id: nat)
    requires Told(past, lists, removed)
    ensures Told(past + [Came(id)], lists[id := [Variable("PATH", "bin:.")]], removed)
  {
    hide Gone, HasCome;
    var later := past + [Came(id)];
    assert later[..|past|] == past;
    forall u ensures HasCome(later, u) <==> HasCome(past, u) || u == id { ComeSnoc(past, Came(id), u); }
    forall name ensures Gone(later, name) <==> Gone(past, name) { GoneSnoc(past, Came(id), name); }
  }

  // What a turn adds to a list, and what it removes from the environment, is what it adds to the past.
  lemma TookMeans(past: seq<Past>, lists: map<nat, seq<Variable>>, removed: set<string>, id: nat, request: Request)
    requires Told(past, lists, removed) && id in lists
    ensures var list := lists[id] + Added(request);
      Told(past + [Took(id, request)], lists[id := list], removed + Names(list))
  {
    hide Gone, HasCome, Names;
    var later, list := past + [Took(id, request)], lists[id] + Added(request);
    assert later[..|past|] == past;
    forall u ensures HasCome(later, u) <==> HasCome(past, u) { ComeSnoc(past, Took(id, request), u); }
    forall name ensures name in removed + Names(list) <==> Gone(later, name) {
      GoneSnoc(past, Took(id, request), name);
      ListedOrGone(past, id, request, name);
    }
  }

  lemma LessIsTold(past: seq<Past>, lists: map<nat, seq<Variable>>, removed: set<string>, id: nat)
    requires Told(past, lists, removed)
    ensures Told(past, lists - {id}, removed)
  {
  }

  lemma ListedOrGone(past: seq<Past>, id: nat, request: Request, name: string)
    requires HasCome(past, id)
    ensures Gone(past, name) || name in Names(ListOf(past, id) + Added(request)) <==>
      || Gone(past, name) || name == "PATH" || (request.SetEnv? && request.name == name && Settable(name))
  {
    var list, added := ListOf(past, id), Added(request);
    NamesHaveValues(list + added, name);
    NamesHaveValues(list, name);
    LastOfMore(list, added, name);
    PathIsListed(past, id);
    if name in Names(list) && name != "PATH" { ListedIsSet(past, id, name); }
    hide LastValue, EverSet;
  }

  // A user's view is what the turns so far say.
  lemma ViewTells(initial: Env, past: seq<Past>, lists: map<nat, seq<Variable>>, removed: set<string>, id: nat, name: string)
    requires Told(past, lists, removed) && id in lists
    ensures Sees(initial, past, id, name, View(initial, removed, lists[id], name))
  {
    PathIsListed(past, id);
    var found := LastValue(lists[id], name);
    if found.Some? { ListTells(past, id, name, found.value); }
    forall value ensures LastSet(past, id, name, value) ==> found == Some(value) {
      ListTells(past, id, name, value);
    }
  }

  class Server {
    const initial: Env
    var env: Env
    var lists: map<nat, seq<Variable>>
    // The names in the lists of all users, past and present, who have had a turn.
    ghost var removed: set<string>
    ghost var past: seq<Past>

    // Between turns no user's value is in the environment, and the lists are what the turns say.
    ghost predicate Valid()
      reads this
    {
      env == initial - removed && Told(past, lists, removed)
    }

    constructor (env: Env)
      ensures Valid() && this.env == env && initial == env && lists == map[] && removed == {} && past == []
    {
      this.initial, this.env := env, env;
      lists, removed, past := map[], {}, [];
    }

    method Login(id: nat)
      requires Valid() && id !in lists
      modifies this`lists, this`past
      ensures Valid() && lists == old(lists)[id := [Variable("PATH", "bin:.")]] && past == old(past) + [Came(id)]
    {
      CameMeans(past, lists, removed, id);
      lists := lists[id := [Variable("PATH", "bin:.")]];
      past := past + [Came(id)];
    }

    method SetEnvVariables(list: seq<Variable>)
      modifies this`env
      ensures env == Overlay(old(env), list)
    {
      for i := 0 to |list|
        invariant env == Overlay(old(env), list[..i])
      {
        assert list[..i + 1][..i] == list[..i];
        env := env[list[i].name := list[i].value];
      }
      assert list[..|list|] == list;
    }

    method UnsetEnvVariables(list: seq<Variable>)
      modifies this`env
      ensures env == old(env) - Names(list)
    {
      for i := 0 to |list|
        invariant env == old(env) - Names(list[..i])
      {
        assert Names(list[..i + 1]) == Names(list[..i]) + {list[i].name} by {
          assert forall k :: 0 <= k < i ==> list[..i + 1][k] == list[..i][k];
          assert list[..i + 1][i] == list[i];
        }
        env := env - {list[i].name};
      }
      assert list[..|list|] == list;
    }

    // The line itself: the one command that changes the environment, the one that reads it, and exit.
    method Handle(id: nat, request: Request) returns (printed: Option<string>)
      requires id in lists
      modifies this`env, this`lists
      ensures printed == if request.PrintEnv? then Lookup(old(env), request.name) else None
      ensures env == Overlay(old(env), Added(request))
      ensures lists == if request.Exit? then old(lists) - {id} else old(lists)[id := old(lists)[id] + Added(request)]
    {
      printed := None;
      assert lists[id] + [] == lists[id] && lists == lists[id := lists[id]];
      match request {
        case SetEnv(name, value) =>
          if Settable(name) {
            env := env[name := value];
            lists := lists[id := lists[id] + [Variable(name, value)]];
            assert Added(request)[..0] == [];
          }
        case PrintEnv(name) =>
          printed := if name in env then Some(env[name]) else None;
        case Exit =>
          lists := lists - {id};
        case Other =>
      }
    }

    // One turn of one user. `seen` is the environment that the user's line runs with, and `printed`
    // what printenv answers.
    method Turn(id: nat, request: Request) returns (seen: Env, printed: Option<string>)
      requires Valid() && id in lists
      modifies this
      ensures Valid() && past == old(past) + [Took(id, request)]
      ensures lists == if request.Exit? then old(lists) - {id} else old(lists)[id := old(lists)[id] + Added(request)]
      ensures removed == old(removed) + Names(old(lists)[id] + Added(request))
      ensures forall name :: Sees(initial, old(past), id, name, Lookup(seen, name))
      ensures if request.PrintEnv? then Sees(initial, old(past), id, request.name, printed) else printed == None
    {
      hide LastValue, View, Names, Overlay, Lookup, Sees, Told;
      var list := lists[id];
      ghost var before := env;
      OverlayTells(id);
      SetEnvVariables(list);
      seen := env;
      printed := Handle(id, request);
      OverlayMore(before, list, Added(request));
      // `exit` returns before the list can change; otherwise the list is the user's current one.
      list := if request.Exit? then list else lists[id];
      assert list == old(lists)[id] + Added(request);
      UnsetEnvVariables(list);
      OverlayRemoved(before, list);
      assert initial - removed - Names(list) == initial - (removed + Names(list));
      TookMeans(past, old(lists), removed, id, request);
      LessIsTold(past + [Took(id, request)], old(lists)[id := list], removed + Names(list), id);
      assert old(lists)[id := list] - {id} == old(lists) - {id};
      removed := removed + Names(list);
      past := past + [Took(id, request)];
    }

    lemma OverlayTells(id: nat)
      requires Valid() && id in lists
      ensures forall name :: Sees(initial, past, id, name, Lookup(Overlay(env, lists[id]), name))
    {
      hide Sees, View, Overlay, Lookup;
      forall name ensures Sees(initial, past, id, name, Lookup(Overlay(env, lists[id]), name)) {
        ViewIsOverlay(initial, removed, lists[id], name);
        ViewTells(initial, past, lists, removed, id, name);
      }
    }
  }

  // What a request adds to its user's list.
  function Added(request: Request): seq<Variable> {
    if request.SetEnv? && Settable(request.name) then [Variable(request.name, request.value)] else []
  }

  lemma {:induction false} OverlayMore(env: Env, list: seq<Variable>, more: seq<Variable>)
    ensures Overlay(Overlay(env, list), more) == Overlay(env, list + more)
  {
    if more == [] {
      assert list + more == list;
    } else {
      OverlayMore(env, list, more[..|more|-1]);
      assert (list + more)[..|list + more| - 1] == list + more[..|more|-1];
    }
  }
}
