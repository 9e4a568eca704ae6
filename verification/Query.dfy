/** The console's query string: the panel form and its parser. */
module Query {
  import opened Commands
  import opened Numbers
  import opened Outcomes
  import opened Texts
  import opened Tokens

  // One remote host of the console.
  datatype ClientInfo = ClientInfo(host: string, port: int, file: string)

  function Blank(unset: int): ClientInfo {
    ClientInfo("", unset, "")
  }

  // ----- What the parser computes -------------------------------------------------------------------------

  // The stretches between ampersands, where the first `from` characters are not looked at: after each
  // ampersand the loop steps over one character, so an ampersand there does not separate.
  function Items(s: string, from: nat): seq<string>
    requires from <= |s|
    decreases |s|
  {
    var end := FindFrom(s, '&', from);
    if end == |s| then []
    else [s[..end]] + (if end + 1 == |s| then [] else Items(s[end + 1..], 1))
  }

  function Update(item: string, info: ClientInfo): Result<ClientInfo> {
    if |item| <= 3 then Ok(info)
    else if item[0] == 'h' then Ok(info.(host := item[3..]))
    else if item[0] == 'f' then Ok(info.(file := item[3..]))
    else if item[0] == 'p' then
      match Stoi(item[3..])
      case Err(e) => Err(e)
      case Ok(port) => Ok(info.(port := port))
    else Ok(info)
  }

  // A file name completes an entry.
  predicate Completes(item: string) {
    |item| > 3 && item[0] == 'f'
  }

  function Prepend(infos: seq<ClientInfo>, more: Result<seq<ClientInfo>>): Result<seq<ClientInfo>> {
    match more
    case Err(e) => Err(e)
    case Ok(rest) => Ok(infos + rest)
  }

  // The entries that a list of items adds, starting from the record left by the items before.
  function Collect(items: seq<string>, info: ClientInfo): Result<seq<ClientInfo>> {
    if items == [] then Ok([])
    else
      var next := Update(items[0], info);
      if next.Err? then Err(next.error)
      else Prepend(if Completes(items[0]) then [next.value] else [], Collect(items[1..], next.value))
  }

  function Pad(infos: seq<ClientInfo>, unset: int): seq<ClientInfo>
    decreases 5 - |infos|
  {
    if |infos| < 5 then Pad(infos + [Blank(unset)], unset) else infos
  }

  // `unset` is the value that the port of a fresh record happens to have.
  function ParsedQuery(query: string, unset: int): Result<seq<ClientInfo>> {
    match Collect(Items(query + ['&'], 0), Blank(unset))
    case Err(e) => Err(e)
    case Ok(infos) => Ok(Pad(infos, unset))
  }

  lemma ItemsAtChar(s: string, from: nat)
    requires from < |s| && s[from] != '&'
    ensures Items(s, from) == Items(s, from + 1)
  {
    assert FindFrom(s, '&', from) == FindFrom(s, '&', from + 1);
  }

  lemma ItemsAtAmpersand(s: string, start: nat, i: nat)
    requires start <= i < |s| && s[i] == '&'
    ensures Items(s[start..], i - start) == [s[start..i]] + (if i + 2 < |s| then Items(s[i + 1..], 1) else [])
  {
    var t := s[start..];
    assert t[i - start] == '&';
    assert t[..i - start] == s[start..i] && t[i - start + 1..] == s[i + 1..];
    if i + 2 == |s| {
      assert FindFrom(s[i + 1..], '&', 1) == 1;
    }
  }

  lemma CollectCons(item: string, rest: seq<string>, info: ClientInfo)
    ensures Collect([item] + rest, info) ==
      var u := Update(item, info);
      if u.Err? then Err(u.error)
      else Prepend(if Completes(item) then [u.value] else [], Collect(rest, u.value))
  {
    assert ([item] + rest)[1..] == rest;
  }

  lemma PrependAll(a: seq<ClientInfo>, b: seq<ClientInfo>, r: Result<seq<ClientInfo>>)
    ensures Prepend([], r) == r
    ensures Prepend(a, Prepend(b, r)) == Prepend(a + b, r)
  {
    if r.Ok? {
      assert [] + r.value == r.value;
      assert a + (b + r.value) == (a + b) + r.value;
    }
  }

  method PadToFive(parsed: seq<ClientInfo>, unset: int) returns (infos: seq<ClientInfo>)
    ensures infos == Pad(parsed, unset)
  {
    infos := parsed;
    var i := |infos|;
    while i < 5
      invariant Pad(infos, unset) == Pad(parsed, unset) && i == |infos|
    {
      infos := infos + [Blank(unset)];
      i := i + 1;
    }
  }

  lemma CollectNothing(info: ClientInfo)
    ensures Collect([], info) == Ok([])
  {
  }

  method ParseQuery(query0: string, unset: int) returns (r: Result<seq<ClientInfo>>)
    ensures r == ParsedQuery(query0, unset)
  {
    hide Items, Collect, Pad;
    var query := query0 + ['&'];
    var infos: seq<ClientInfo> := [];
    var start := 0;
    var info := Blank(unset);
    var i := 0;
    ghost var all := Collect(Items(query, 0), info);
    assert query[0..] == query;
    PrependAll([], [], all);
    while i < |query|
      invariant start <= |query| && (i < |query| ==> start <= i)
      invariant all == Prepend(infos, if i < |query| then Collect(Items(query[start..], i - start), info) else Ok([]))
      decreases |query| - i
    {
      if query[i] == '&' || i == |query| - 1 {
        ghost var item := query[start..i];
        ghost var before := infos;
        ghost var rest := if i + 2 < |query| then Items(query[i + 1..], 1) else [];
        ItemsAtAmpersand(query, start, i);
        CollectCons(item, rest, info);
        assert |item| > 3 ==> query[start + 3..i] == item[3..] && query[start] == item[0];
        if query[start] == 'h' && i - start > 3 {
          info := info.(host := query[start + 3..i]);
        }
        if query[start] == 'p' && i - start > 3 {
          var port := Stoi(query[start + 3..i]);
          if port.Err? {
            return Err(port.error);
          }
          info := info.(port := port.value);
        }
        if query[start] == 'f' && i - start > 3 {
          info := info.(file := query[start + 3..i]);
          infos := infos + [info];
        }
        PrependAll(before, infos[|before|..], Collect(rest, info));
        CollectNothing(info);
        i := i + 1;
        start := i;
      } else {
        ItemsAtChar(query[start..], i - start);
      }
      i := i + 1;
    }
    assert infos + [] == infos;
    infos := PadToFive(infos, unset);
    r := Ok(infos);
  }

  datatype SocksInfo = SocksInfo(host: string, port: int)

  function SocksInfoOf(query: string): Result<SocksInfo>
    requires |query| <= NPOS
  {
    var sh, sp := FindText(query, "&sh"), FindText(query, "&sp");
    var host := Substr(query, Behind(sh, 4), Minus(Minus(Position(sp), Position(sh)), 4));
    var text := Substr(query, Behind(sp, 4), Minus(Minus(|query|, Position(sp)), 4));
    if host.Err? then Err(host.error)
    else if text.Err? then Err(text.error)
    else
      var port := Stoi(text.value);
      if port.Err? then Err(port.error) else Ok(SocksInfo(host.value, port.value))
  }

  // ----- The form -----------------------------------------------------------------------------------------

  // What a user entered for one host; an empty text or no port is a field left blank.
  datatype Choice = Choice(host: string, port: Option<nat>, file: string)

  predicate Plain(c: Choice) {
    '&' !in c.host && '&' !in c.file && (c.port.Some? ==> c.port.value <= INT_MAX)
  }

  predicate Filled(c: Choice) {
    c.host != "" && c.port.Some? && c.file != ""
  }

  function PortText(port: Option<nat>): string {
    match port
    case None => ""
    case Some(p) => ToString(p)
  }

  function Field(key: char, k: nat, value: string): string
    requires k < 10
  {
    [key, DigitChar(k), '='] + value
  }

  function ChoiceItems(c: Choice, k: nat): seq<string>
    requires k < 10
  {
    [Field('h', k, c.host), Field('p', k, PortText(c.port)), Field('f', k, c.file)]
  }

  // The items of the choices that take the indices from k on.
  function FormItems(cs: seq<Choice>, k: nat): seq<string>
    requires k + |cs| <= 10
  {
    if cs == [] then [] else ChoiceItems(cs[0], k) + FormItems(cs[1..], k + 1)
  }

  function SocksItems(socks: SocksInfo): seq<string>
    requires socks.port >= 0
  {
    ["sh=" + socks.host, "sp=" + ToString(socks.port)]
  }

  // The query string that the form submits.
  function Form(cs: seq<Choice>, socks: SocksInfo): string
    requires |cs| <= 10 && socks.port >= 0
  {
    Join(FormItems(cs, 0) + SocksItems(socks), '&')
  }

  // ----- Splitting a form ---------------------------------------------------------------------------------

  predicate Separable(items: seq<string>) {
    forall t :: t in items ==> t != [] && '&' !in t
  }

  lemma ItemsOfFirst(t: string, rest: string, from: nat)
    requires from <= |t| && '&' !in t
    ensures Items(t + ['&'] + rest, from) == [t] + (if rest == [] then [] else Items(rest, 1))
  {
    var s := t + ['&'] + rest;
    assert s[from..|t|] == t[from..];
    assert forall c :: c in t[from..] ==> c in t;
    FindFromIs(s, '&', from, |t|);
    assert s[..|t|] == t && s[|t| + 1..] == rest;
  }

  // The skipped characters do not matter when no item is empty.
  lemma {:induction false} ItemsOfJoin(items: seq<string>, from: nat)
    requires items != [] && Separable(items) && from <= 1
    ensures from <= |Join(items, '&') + ['&']|
    ensures Items(Join(items, '&') + ['&'], from) == items
    decreases |items|
  {
    hide Items;
    var t := items[0];
    assert t in items;
    var rest := if |items| == 1 then [] else Join(items[1..], '&') + ['&'];
    assert Join(items, '&') + ['&'] == t + ['&'] + rest;
    ItemsOfFirst(t, rest, from);
    if |items| > 1 {
      assert forall u :: u in items[1..] ==> u in items;
      ItemsOfJoin(items[1..], 1);
    }
  }

  lemma ChoiceItemsSeparable(c: Choice, k: nat)
    requires Plain(c) && k < 10
    ensures Separable(ChoiceItems(c, k))
    ensures forall t :: t in ChoiceItems(c, k) ==> |t| >= 2 && t[0] != 's'
  {
    assert '&' !in PortText(c.port);
  }

  lemma {:induction false} FormItemsSeparable(cs: seq<Choice>, k: nat)
    requires k + |cs| <= 10 && forall c :: c in cs ==> Plain(c)
    ensures Separable(FormItems(cs, k)) && (cs != [] ==> FormItems(cs, k) != [])
    ensures forall t :: t in FormItems(cs, k) ==> |t| >= 2 && t[0] != 's'
  {
    if cs != [] {
      assert cs[0] in cs;
      ChoiceItemsSeparable(cs[0], k);
      assert forall c :: c in cs[1..] ==> c in cs;
      FormItemsSeparable(cs[1..], k + 1);
    }
  }

  lemma SocksItemsSeparable(socks: SocksInfo)
    requires '&' !in socks.host && socks.port >= 0
    ensures Separable(SocksItems(socks))
  {
  }

  // ----- Reading a form -----------------------------------------------------------------------------------

  // The record after one choice: blank fields keep what the choices before left there.
  function Carry(c: Choice, info: ClientInfo): ClientInfo {
    ClientInfo(
      if c.host == "" then info.host else c.host,
      if c.port.None? then info.port else c.port.value,
      if c.file == "" then info.file else c.file)
  }

  // What the parser reads from the choices: one entry for each file name, with carried fields.
  function Carried(cs: seq<Choice>, info: ClientInfo): seq<ClientInfo> {
    if cs == [] then []
    else (if cs[0].file != "" then [Carry(cs[0], info)] else []) + Carried(cs[1..], Carry(cs[0], info))
  }

  // What the user meant.
  function Entries(cs: seq<Choice>): seq<ClientInfo> {
    if cs == [] then []
    else (if Filled(cs[0]) then [ClientInfo(cs[0].host, cs[0].port.value, cs[0].file)] else []) + Entries(cs[1..])
  }

  lemma {:induction false} CarriedIsEntries(cs: seq<Choice>, info: ClientInfo)
    requires forall c :: c in cs && c.file != "" ==> Filled(c)
    ensures Carried(cs, info) == Entries(cs)
  {
    if cs != [] {
      assert cs[0] in cs;
      CarriedIsEntries(cs[1..], Carry(cs[0], info));
    }
  }

  lemma UpdateField(key: char, k: nat, value: string, info: ClientInfo)
    requires k < 10
    ensures var item := Field(key, k, value);
      && (value != [] ==> |item| > 3 && item[0] == key && item[3..] == value)
      && (value == [] ==> |item| == 3)
  {
  }

  lemma CollectChoice(c: Choice, k: nat, rest: seq<string>, info: ClientInfo)
    requires Plain(c) && k < 10
    ensures Collect(ChoiceItems(c, k) + rest, info) ==
      Prepend(if c.file != "" then [Carry(c, info)] else [], Collect(rest, Carry(c, info)))
  {
    var h, p, f := Field('h', k, c.host), Field('p', k, PortText(c.port)), Field('f', k, c.file);
    UpdateField('h', k, c.host, info);
    UpdateField('p', k, PortText(c.port), info);
    UpdateField('f', k, c.file, info);
    if c.port.Some? { StoiOfToString(c.port.value); }
    assert ChoiceItems(c, k) + rest == [h] + ([p] + ([f] + rest));
    var afterHost := Update(h, info).value;
    var afterPort := Update(p, afterHost).value;
    CollectCons(h, [p] + ([f] + rest), info);
    CollectCons(p, [f] + rest, afterHost);
    CollectCons(f, rest, afterPort);
    PrependAll([], [], Collect([p] + ([f] + rest), afterHost));
    PrependAll([], [], Collect([f] + rest, afterPort));
  }

  lemma {:induction false} CollectForm(cs: seq<Choice>, k: nat, socks: SocksInfo, info: ClientInfo)
    requires k + |cs| <= 10 && (forall c :: c in cs ==> Plain(c)) && socks.port >= 0
    ensures Collect(FormItems(cs, k) + SocksItems(socks), info) == Ok(Carried(cs, info))
    decreases |cs|
  {
    var tail := SocksItems(socks);
    if cs == [] {
      assert FormItems(cs, k) + tail == [tail[0]] + ([tail[1]] + []);
      CollectCons(tail[0], [tail[1]] + [], info);
      CollectCons(tail[1], [], info);
      CollectNothing(info);
      PrependAll([], [], Ok([]));
    } else {
      assert cs[0] in cs;
      assert forall c :: c in cs[1..] ==> c in cs;
      var rest := FormItems(cs[1..], k + 1) + tail;
      assert FormItems(cs, k) + tail == ChoiceItems(cs[0], k) + rest;
      CollectChoice(cs[0], k, rest, info);
      CollectForm(cs[1..], k + 1, socks, Carry(cs[0], info));
    }
  }

  // For every form, filled in or not: the parser reads the carried entries.
  lemma FormIsRead(cs: seq<Choice>, socks: SocksInfo, unset: int)
    requires |cs| <= 10 && (forall c :: c in cs ==> Plain(c))
    requires '&' !in socks.host && socks.port >= 0
    ensures ParsedQuery(Form(cs, socks), unset) == Ok(Pad(Carried(cs, Blank(unset)), unset))
  {
    FormItemsSeparable(cs, 0);
    SocksItemsSeparable(socks);
    ItemsOfJoin(FormItems(cs, 0) + SocksItems(socks), 0);
    CollectForm(cs, 0, socks, Blank(unset));
  }

  // ----- Finding the SOCKS server -------------------------------------------------------------------------

  lemma {:induction false} JoinConcat(a: seq<string>, b: seq<string>)
    requires a != [] && b != []
    ensures Join(a + b, '&') == Join(a, '&') + ['&'] + Join(b, '&')
  {
    if |a| == 1 {
      assert (a + b)[1..] == b;
    } else {
      assert (a + b)[1..] == a[1..] + b;
      JoinConcat(a[1..], b);
    }
  }

  lemma FindAtSeparator(key: string, more: string)
    ensures FindText(['&'] + more, ['&'] + key) ==
      if key <= more then Some(0)
      else if FindText(more, ['&'] + key).None? then None
      else Some(FindText(more, ['&'] + key).value + 1)
  {
    var s, p := ['&'] + more, ['&'] + key;
    assert s[1..] == more;
    assert p <= s <==> key <= more by {
      if p <= s { assert key == p[1..] == s[..|p|][1..]; assert key == more[..|key|]; }
      if key <= more { assert p == s[..|p|]; }
    }
  }

  // The key is found at the item that begins with it when no item between begins with it.
  lemma {:induction false} FindKey(items: seq<string>, key: string, j: nat)
    requires |key| == 2 && Separable(items) && 1 <= j < |items| && key <= items[j]
    requires forall i :: 1 <= i < j ==> |items[i]| >= 2 && !(key <= items[i])
    ensures FindText(Join(items, '&'), ['&'] + key) == Some(|Join(items[..j], '&')|)
    decreases j
  {
    hide FindText;
    var p, more := ['&'] + key, Join(items[1..], '&');
    assert items[0] in items;
    assert Join(items, '&') == items[0] + (['&'] + more);
    FindTextSkips(items[0], ['&'] + more, p);
    FindAtSeparator(key, more);
    assert key <= more <==> key <= items[1] by {
      assert items[1] == more[..|items[1]|];
      assert |items[1]| >= 2;
    }
    if j == 1 {
      assert items[..1] == [items[0]];
    } else {
      assert forall t :: t in items[1..] ==> t in items;
      FindKey(items[1..], key, j - 1);
      assert items[..j][1..] == items[1..][..j - 1];
    }
  }

  lemma Ampersands(before: string, host: string, port: string)
    ensures before + ['&'] + ("sh=" + host + ['&'] + ("sp=" + port)) == before + "&sh=" + host + "&sp=" + port
    ensures before + ['&'] + ("sh=" + host) == before + "&sh=" + host
  {
    assert ['&'] + "sh=" == "&sh=" && ['&'] + "sp=" == "&sp=";
    assert before + ['&'] + ("sh=" + host) == before + "&sh=" + host;
    assert before + ['&'] + ("sh=" + host + ['&'] + ("sp=" + port)) == before + ['&'] + ("sh=" + host) + ['&'] + ("sp=" + port);
  }

  // A form is the texts of its choices followed by the two SOCKS fields.
  lemma FormText(cs: seq<Choice>, socks: SocksInfo)
    requires 1 <= |cs| <= 10 && socks.port >= 0
    ensures var before := Join(FormItems(cs, 0), '&');
      && Form(cs, socks) == before + "&sh=" + socks.host + "&sp=" + ToString(socks.port)
      && Join(FormItems(cs, 0) + [SocksItems(socks)[0]], '&') == before + "&sh=" + socks.host
  {
    var form, tail := FormItems(cs, 0), SocksItems(socks);
    assert form != [];
    hide FormItems, ToString;
    JoinConcat(form, tail);
    JoinConcat(form, [tail[0]]);
    assert Join(tail, '&') == tail[0] + ['&'] + tail[1] && Join([tail[0]], '&') == tail[0];
    hide Join;
    Ampersands(Join(form, '&'), socks.host, ToString(socks.port));
  }

  // Where the two keys are found in a form.
  lemma SocksFound(cs: seq<Choice>, socks: SocksInfo)
    requires 1 <= |cs| <= 10 && (forall c :: c in cs ==> Plain(c))
    requires '&' !in socks.host && socks.port >= 0
    ensures var before := Join(FormItems(cs, 0), '&');
      && FindText(Form(cs, socks), "&sh") == Some(|before|)
      && FindText(Form(cs, socks), "&sp") == Some(|before| + 4 + |socks.host|)
  {
    hide FormItems, FindText, ToString, Plain, Join;
    FormItemsSeparable(cs, 0);
    SocksItemsSeparable(socks);
    FormText(cs, socks);
    SocksKeys(FormItems(cs, 0), SocksItems(socks));
  }

  lemma SocksKeys(form: seq<string>, tail: seq<string>)
    requires form != [] && Separable(form) && forall t :: t in form ==> |t| >= 2 && t[0] != 's'
    requires |tail| == 2 && Separable(tail) && "sh" <= tail[0] && "sp" <= tail[1]
    ensures FindText(Join(form + tail, '&'), "&sh") == Some(|Join(form, '&')|)
    ensures FindText(Join(form + tail, '&'), "&sp") == Some(|Join(form + [tail[0]], '&')|)
  {
    hide FindText, Join;
    var items, m := form + tail, |form|;
    assert forall i :: 0 <= i < m ==> items[i] == form[i] && form[i] in form;
    assert items[m] == tail[0] && items[m + 1] == tail[1];
    FindKey(items, "sh", m);
    assert tail[0][1] == 'h' && |tail[0]| >= 2;
    FindKey(items, "sp", m + 1);
    assert items[..m] == form && items[..m + 1] == form + [tail[0]];
    assert ['&'] + "sh" == "&sh" && ['&'] + "sp" == "&sp";
  }

  // The SOCKS server is read back whatever the choices are.
  lemma SocksIsRead(cs: seq<Choice>, socks: SocksInfo)
    requires 1 <= |cs| <= 10 && (forall c :: c in cs ==> Plain(c))
    requires '&' !in socks.host && 0 <= socks.port <= INT_MAX
    requires |Form(cs, socks)| <= NPOS
    ensures SocksInfoOf(Form(cs, socks)) == Ok(socks)
  {
    hide Form, FormItems, Join, FindText, Stoi, ToString;
    SocksFound(cs, socks);
    FormText(cs, socks);
    StoiOfToString(socks.port);
    var before, query, port := Join(FormItems(cs, 0), '&'), Form(cs, socks), ToString(socks.port);
    var idx1, idx2 := |before|, |before| + 4 + |socks.host|;
    assert query[idx1 + 4..] == socks.host + "&sp=" + port;
    assert query[idx2 + 4..] == port;
    assert query[idx1 + 4..][..|socks.host|] == socks.host;
    assert Substr(query, idx1 + 4, idx2 - idx1 - 4) == Ok(socks.host);
    assert Substr(query, idx2 + 4, |query| - idx2 - 4) == Ok(port);
  }

  // Padding keeps what is there and fills up to five with blank records.
  lemma {:induction false} PadIs(infos: seq<ClientInfo>, unset: int)
    ensures var p := Pad(infos, unset);
      && |p| == (if |infos| < 5 then 5 else |infos|)
      && infos <= p
      && forall k :: |infos| <= k < |p| ==> p[k] == Blank(unset)
    decreases 5 - |infos|
  {
    if |infos| < 5 {
      PadIs(infos + [Blank(unset)], unset);
    }
  }

  // A slot with a file name makes an entry, whatever else it holds.
  lemma {:induction false} CarriedCounts(cs: seq<Choice>, info: ClientInfo)
    ensures |Entries(cs)| <= |Carried(cs, info)|
    ensures |Entries(cs)| == |Carried(cs, info)| <==> forall c :: c in cs && c.file != "" ==> Filled(c)
    ensures forall e :: e in Carried(cs, info) ==> e.file != ""
  {
    if cs != [] {
      CarriedCounts(cs[1..], Carry(cs[0], info));
      assert forall c :: c in cs <==> c == cs[0] || c in cs[1..];
    }
  }

  // Main result: a form gives back its filled slots in order, moved together and padded to five, if and
  // only if every slot with a file name is filled. In particular each slot may be left blank.
  lemma FormReadsBackIff(cs: seq<Choice>, socks: SocksInfo, unset: int)
    requires |cs| <= 10 && (forall c :: c in cs ==> Plain(c))
    requires '&' !in socks.host && socks.port >= 0
    ensures ParsedQuery(Form(cs, socks), unset) == Ok(Pad(Entries(cs), unset)) <==>
            forall c :: c in cs && c.file != "" ==> Filled(c)
  {
    var entries, carried := Entries(cs), Carried(cs, Blank(unset));
    FormIsRead(cs, socks, unset);
    CarriedCounts(cs, Blank(unset));
    if |entries| == |carried| {
      CarriedIsEntries(cs, Blank(unset));
    } else {
      PadIs(entries, unset);
      PadIs(carried, unset);
      var n := |entries|;
      assert carried[n] in carried && Pad(carried, unset)[n] == carried[n];
    }
  }

  // Every form that is complete slot by slot gives back its slots and the SOCKS server.
  lemma FormRoundTrip(cs: seq<Choice>, socks: SocksInfo, unset: int)
    requires 1 <= |cs| <= 10 && forall c :: c in cs ==> Plain(c) && (c.file != "" ==> Filled(c))
    requires '&' !in socks.host && 0 <= socks.port <= INT_MAX
    requires |Form(cs, socks)| <= NPOS
    ensures ParsedQuery(Form(cs, socks), unset) == Ok(Pad(Entries(cs), unset))
    ensures SocksInfoOf(Form(cs, socks)) == Ok(socks)
  {
    FormReadsBackIff(cs, socks, unset);
    SocksIsRead(cs, socks);
  }

  // A half-filled slot takes over what an earlier slot left: its file is read by the earlier host.
  lemma HalfFilledSlotCarries(a: Choice, b: Choice, info: ClientInfo)
    requires Filled(a) && b.file != ""
    ensures Carried([a, b], info) == Entries([a]) + [ClientInfo(
      if b.host == "" then a.host else b.host, if b.port.None? then a.port.value else b.port.value, b.file)]
  {
    assert [a, b][1..] == [b] && [b][1..] == [] && [a][1..] == [];
    assert Carried([b], Carry(a, info)) == [Carry(b, Carry(a, info))];
    assert Entries([a]) == [Carry(a, info)];
  }
}
