/** The double-quoted script literal through which the console sends escaped text to its page. */
module ScriptLiteral {
  import opened Markup
  import opened Outcomes
  import opened Tokens

  // What stands behind a backslash: the text it means and the number of characters it takes up.
  datatype Escape = Escape(value: string, used: nat)

  // The escape sequences of the script language, as far as they matter here: none is shorter than the
  // text it means, and a backslash before an ampersand means just the ampersand.
  ghost predicate Sequences(escapes: string -> Option<Escape>) {
    forall t :: escapes(t).Some? ==> Fits(t, escapes(t).value)
  }

  predicate Fits(t: string, e: Escape) {
    && 1 <= e.used <= |t| && |e.value| <= e.used
    && if t[0] == '&' then e == Escape("&", 1) else '&' !in t[..e.used]
  }

  datatype Literal = Literal(value: string, rest: string)

  function Before(value: string, l: Option<Literal>): Option<Literal> {
    if l.None? then None else Some(l.value.(value := value + l.value.value))
  }

  // The literal whose first character is s[0], up to its closing quote, and what follows that.
  function Read(s: string, escapes: string -> Option<Escape>): Option<Literal>
    decreases |s|
  {
    if s == [] || s[0] == '\n' || s[0] == '\r' then None
    else if s[0] == '"' then Some(Literal([], s[1..]))
    else if s[0] == '\\' then
      var e := escapes(s[1..]);
      if e.Some? && 1 <= e.value.used < |s| then Before(e.value.value, Read(s[1 + e.value.used..], escapes)) else None
    else Before([s[0]], Read(s[1..], escapes))
  }

  predicate Plain(s: string) {
    forall c :: c in s ==> c !in "\"\\\n\r"
  }

  // Plain characters stand for themselves.
  lemma {:induction false} ReadPlain(a: string, s: string, escapes: string -> Option<Escape>)
    requires Plain(a)
    ensures Read(a + s, escapes) == Before(a, Read(s, escapes))
  {
    if a == [] {
      assert a + s == s;
      if Read(s, escapes).Some? { assert [] + Read(s, escapes).value.value == Read(s, escapes).value.value; }
    } else {
      assert a[0] in a && forall c :: c in a[1..] ==> c in a;
      assert (a + s)[1..] == a[1..] + s;
      ReadPlain(a[1..], s, escapes);
      if Read(s, escapes).Some? {
        assert [a[0]] + (a[1..] + Read(s, escapes).value.value) == a + Read(s, escapes).value.value;
      }
    }
  }

  // ----- What entities do to lengths --------------------------------------------------------------------

  lemma ShownPlainChar(x: char, w: string)
    requires x != '&'
    ensures Shown([x] + w) == [x] + Shown(w)
  {
    var s := [x] + w;
    assert s[0] != '&' && s[1..] == w;
  }

  lemma {:induction false} ShownPlain(a: string, w: string)
    requires '&' !in a
    ensures Shown(a + w) == a + Shown(w)
  {
    hide Shown;
    if a == [] {
      assert a + w == w && a + Shown(w) == Shown(w);
    } else {
      var b := a[1..];
      assert a[0] in a && a == [a[0]] + b;
      assert a + w == [a[0]] + (b + w);
      ShownPlainChar(a[0], b + w);
      ShownPlain(b, w);
      assert [a[0]] + (b + Shown(w)) == a + Shown(w);
    }
  }

  lemma BehindAmpersand(b: string, w: string)
    ensures ['&'] + b <= ['&'] + w <==> b <= w
  {
    if ['&'] + b <= ['&'] + w {
      assert b == (['&'] + w)[..1 + |b|][1..] == w[..|b|];
    }
    if b <= w {
      assert ['&'] + b == (['&'] + w)[..1 + |b|];
    }
  }

  lemma EntityIsPlain(c: char)
    requires c in "\n&><"
    ensures Entity(c) != [] && Entity(c)[0] == '&' && Plain(Entity(c))
  {
  }

  lemma EntityBody(c: char)
    requires c in "\n&><"
    ensures Entity(c) != [] && Entity(c) == ['&'] + Entity(c)[1..]
    ensures '&' !in Entity(c)[1..] && Plain(Entity(c)[1..])
  {
    EntityIsPlain(c);
    var e := Entity(c);
    assert e == ['&'] + e[1..];
    assert forall x :: x in e[1..] ==> x in e;
  }

  // An ampersand begins an entity for c, or it is shown as it is.
  lemma EntityBegins(c: char, w: string)
    requires c in "\n&><" && Entity(c)[1..] <= w
    ensures var body := Entity(c)[1..]; Shown(['&'] + w) == [c] + Shown(w[|body|..]) && '&' !in body && Plain(body)
  {
    EntityIsPlain(c);
    EntityBody(c);
    hide Shown, Entity, Plain;
    var body := Entity(c)[1..];
    assert w == body + w[|body|..];
    assert ['&'] + w == Entity(c) + w[|body|..];
    ShownEntity(c, w[|body|..]);
  }

  lemma ShownAmpersand(w: string) returns (c: Option<char>)
    ensures c.None? ==> Shown(['&'] + w) == ['&'] + Shown(w)
    ensures c.Some? ==> c.value in "\n&><" && Entity(c.value)[1..] <= w
  {
    if "NewLine;" <= w {
      assert "&NewLine;"[1..] == "NewLine;";
      c := Some('\n');
    } else if "amp;" <= w {
      assert "&amp;"[1..] == "amp;";
      c := Some('&');
    } else if "gt;" <= w {
      assert "&gt;"[1..] == "gt;";
      c := Some('>');
    } else if "lt;" <= w {
      assert "&lt;"[1..] == "lt;";
      c := Some('<');
    } else {
      c := None;
      NoEntity(w);
    }
  }

  lemma NoEntity(w: string)
    requires !("NewLine;" <= w) && !("amp;" <= w) && !("gt;" <= w) && !("lt;" <= w)
    ensures Shown(['&'] + w) == ['&'] + Shown(w)
  {
    BehindAmpersand("NewLine;", w);
    BehindAmpersand("amp;", w);
    BehindAmpersand("gt;", w);
    BehindAmpersand("lt;", w);
    assert ['&'] + "NewLine;" == "&NewLine;" && ['&'] + "amp;" == "&amp;" && ['&'] + "gt;" == "&gt;" && ['&'] + "lt;" == "&lt;";
    assert (['&'] + w)[1..] == w;
  }

  // One more character shows at most one more.
  lemma ShownOneMore(x: char, w: string)
    ensures |Shown([x] + w)| <= 1 + |Shown(w)|
  {
    hide Shown;
    if x != '&' {
      ShownPlainChar(x, w);
    } else {
      var c := ShownAmpersand(w);
      if c.Some? {
        var body := Entity(c.value)[1..];
        EntityBegins(c.value, w);
        assert w == body + w[|body|..];
        ShownPlain(body, w[|body|..]);
      }
    }
  }

  lemma {:induction false} ShownMore(a: string, w: string)
    ensures |Shown(a + w)| <= |a| + |Shown(w)|
  {
    hide Shown;
    if a == [] {
      assert a + w == w;
    } else {
      ShownMore(a[1..], w);
      assert a + w == [a[0]] + (a[1..] + w);
      ShownOneMore(a[0], a[1..] + w);
    }
  }

  // ----- What the literal does to the text -----------------------------------------------------------------

  // The characters of the source between the quotes.
  function Raw(s: string, l: Literal): string
    requires |l.rest| < |s|
  {
    s[..|s| - |l.rest| - 1]
  }

  // The literal ends inside s; without a backslash it is its own source, with one it shows less.
  ghost predicate Shrinks(s: string, l: Literal) {
    && |l.rest| < |s|
    && |Shown(l.value)| <= |Shown(Raw(s, l))|
    && ('\\' in Raw(s, l) ==> |Shown(l.value)| < |Shown(Raw(s, l))|)
    && ('\\' !in Raw(s, l) ==> l.value == Raw(s, l) && '"' !in l.value)
  }

  lemma ShrinkPlain(x: char, s: string, l: Literal, m: Literal)
    requires x != '&' && x != '"' && x != '\\' && Shrinks(s, m)
    requires l == Literal([x] + m.value, m.rest)
    ensures Shrinks([x] + s, l)
  {
    hide Shown;
    assert Raw([x] + s, l) == [x] + Raw(s, m);
    ShownPlainChar(x, m.value);
    ShownPlainChar(x, Raw(s, m));
  }

  lemma ShrinkAmpersand(s: string, l: Literal, m: Literal)
    requires Shrinks(s, m) && l == Literal(['&'] + m.value, m.rest)
    requires Shown(['&'] + Raw(s, m)) == ['&'] + Shown(Raw(s, m))
    ensures Shrinks(['&'] + s, l)
  {
    hide Shown;
    assert Raw(['&'] + s, l) == ['&'] + Raw(s, m);
    ShownOneMore('&', m.value);
  }

  lemma ShrinkEntity(c: char, s: string, l: Literal, m: Literal)
    requires c in "\n&><" && Shrinks(s, m) && l == Literal(Entity(c) + m.value, m.rest)
    ensures Shrinks(Entity(c) + s, l)
  {
    hide Shown;
    assert Raw(Entity(c) + s, l) == Entity(c) + Raw(s, m);
    assert '"' !in Entity(c) && '\\' !in Entity(c);
    ShownEntity(c, m.value);
    ShownEntity(c, Raw(s, m));
  }

  lemma ShrinkEscape(t: string, e: Escape, l: Literal, m: Literal)
    requires Fits(t, e) && t[0] != '&' && Shrinks(t[e.used..], m)
    requires l == Literal(e.value + m.value, m.rest)
    ensures Shrinks(['\\'] + t, l)
  {
    hide Shown;
    var raw := Raw(t[e.used..], m);
    assert Raw(['\\'] + t, l) == ['\\'] + (t[..e.used] + raw);
    ShownPlainChar('\\', t[..e.used] + raw);
    ShownPlain(t[..e.used], raw);
    ShownMore(e.value, m.value);
  }

  lemma ShrinkBackslashed(t: string, l: Literal)
    requires Shrinks(t, l)
    ensures Shrinks(['\\'] + t, l)
  {
    hide Shown;
    assert Raw(['\\'] + t, l) == ['\\'] + Raw(t, l);
    ShownPlainChar('\\', Raw(t, l));
  }

  lemma {:induction false} ReadShrinks(s: string, escapes: string -> Option<Escape>)
    requires Sequences(escapes) && Read(s, escapes).Some?
    ensures Shrinks(s, Read(s, escapes).value)
    decreases |s|
  {
    hide Shrinks, Shown;
    var l := Read(s, escapes).value;
    var t := s[1..];
    assert s == [s[0]] + t;
    if s[0] == '"' {
      NothingShrinks(s);
    } else if s[0] == '\\' {
      var e := escapes(t).value;
      assert t == [t[0]] + t[1..] && s[1 + e.used..] == t[e.used..];
      if t[0] == '&' {
        ReadShrinks(t, escapes);
        ShrinkBackslashed(t, l);
      } else {
        ReadShrinks(t[e.used..], escapes);
        ShrinkEscape(t, e, l, Read(t[e.used..], escapes).value);
      }
    } else if s[0] == '&' {
      AmpersandShrinks(t, escapes);
    } else {
      ReadShrinks(t, escapes);
      ShrinkPlain(s[0], t, l, Read(t, escapes).value);
    }
  }

  lemma NothingShrinks(s: string)
    requires s != [] && s[0] == '"'
    ensures Shrinks(s, Literal([], s[1..]))
  {
    assert Raw(s, Literal([], s[1..])) == [];
  }

  // An entity stands for itself in the literal.
  lemma ReadEntity(c: char, t: string, escapes: string -> Option<Escape>)
    requires c in "\n&><" && Entity(c) != [] && Entity(c)[1..] <= t
    ensures var u := t[|Entity(c)| - 1..];
      Entity(c) + u == ['&'] + t && Read(['&'] + t, escapes) == Before(Entity(c), Read(u, escapes))
  {
    EntityIsPlain(c);
    hide Entity, Plain, Read;
    var e := Entity(c);
    var u := t[|e| - 1..];
    assert t == e[1..] + u;
    assert e == ['&'] + e[1..];
    assert e + u == ['&'] + t;
    ReadPlain(e, u, escapes);
  }

  lemma {:induction false} AmpersandShrinks(t: string, escapes: string -> Option<Escape>)
    requires Sequences(escapes) && Read(['&'] + t, escapes).Some?
    ensures Shrinks(['&'] + t, Read(['&'] + t, escapes).value)
    decreases |t| + 1, 0
  {
    assert (['&'] + t)[1..] == t;
    hide Shown, Entity;
    ReadShrinks(t, escapes);
    var l, m := Read(['&'] + t, escapes).value, Read(t, escapes).value;
    assert Raw(t, m) <= t;
    var c := ShownAmpersand(Raw(t, m));
    hide Shrinks, Raw;
    if c.None? {
      ShrinkAmpersand(t, l, m);
    } else {
      EntityIsPlain(c.value);
      ReadEntity(c.value, t, escapes);
      var u := t[|Entity(c.value)| - 1..];
      hide Read;
      ReadShrinks(u, escapes);
      ShrinkEntity(c.value, u, l, Read(u, escapes).value);
    }
  }

  // ----- The page ---------------------------------------------------------------------------------------------

  // What the console writes behind the opening quote: the escaped text, more markup, and the rest of the line.
  function Written(text: string, more: string, after: string): string {
    Escaped(text) + more + ['"'] + after
  }

  // The script reads exactly the literal that was meant, and the page shows the text in it.
  ghost predicate TextIsShown(text: string, more: string, after: string, escapes: string -> Option<Escape>) {
    var l := Read(Written(text, more, after), escapes);
    l.Some? && l.value.rest == after && Shown(l.value.value) == Without(text, '\r') + Shown(more)
  }

  // Main result: whatever the escape sequences of the script language mean, the page shows the text,
  // less its carriage returns, if and only if it holds no double quote and no backslash.
  lemma TextIsShownIff(text: string, more: string, after: string, escapes: string -> Option<Escape>)
    requires Sequences(escapes) && Plain(more)
    ensures TextIsShown(text, more, after, escapes) <==> '"' !in text && '\\' !in text
  {
    hide Shown;
    var s, html := Written(text, more, after), Escaped(text) + more;
    EscapedIsShown(text, more);
    EscapedIsInert(text);
    if TextIsShown(text, more, after, escapes) {
      var l := Read(s, escapes).value;
      ReadShrinks(s, escapes);
      assert Raw(s, l) == html;
      assert '"' !in html && '\\' !in html;
      assert forall c :: c in Escaped(text) ==> c in html;
    }
    if '"' !in text && '\\' !in text {
      assert Plain(html);
      assert s == html + (['"'] + after);
      ReadPlain(html, ['"'] + after, escapes);
      assert (['"'] + after)[1..] == after && html + [] == html;
    }
  }
}
