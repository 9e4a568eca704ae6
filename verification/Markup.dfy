/** Escaping the text that the console writes into its page. */
module Markup {
  import opened Tokens

  function Entity(c: char): string {
    match c
    case '\n' => "&NewLine;"
    case '\r' => ""
    case '&' => "&amp;"
    case '>' => "&gt;"
    case '<' => "&lt;"
    case _ => [c]
  }

  function Escaped(s: string): string {
    if s == [] then [] else Entity(s[0]) + Escaped(s[1..])
  }

  method Escape(message: string) returns (result: string)
    ensures result == Escaped(message)
  {
    hide Entity;
    result := "";
    assert message[0..] == message;
    for i := 0 to |message|
      invariant result + Escaped(message[i..]) == Escaped(message)
    {
      var tail := message[i..];
      assert tail[0] == message[i] && tail[1..] == message[i + 1..];
      assert result + (Entity(message[i]) + Escaped(tail[1..])) == result + Entity(message[i]) + Escaped(tail[1..]);
      result := result + Entity(message[i]);
    }
  }

  // What a page shows: each of the four entities stands for its character.
  function Shown(s: string): string
    decreases |s|
  {
    if s == [] then []
    else if "&NewLine;" <= s then ['\n'] + Shown(s[9..])
    else if "&amp;" <= s then ['&'] + Shown(s[5..])
    else if "&gt;" <= s then ['>'] + Shown(s[4..])
    else if "&lt;" <= s then ['<'] + Shown(s[4..])
    else [s[0]] + Shown(s[1..])
  }

  lemma ShownEntity(c: char, rest: string)
    ensures Shown(Entity(c) + rest) == (if c == '\r' then [] else [c]) + Shown(rest)
  {
    var s := Entity(c) + rest;
    assert s[|Entity(c)|..] == rest;
    if c == '\r' {
      assert s == rest;
    } else if c in "\n&<>" {
      assert s[..|Entity(c)|] == Entity(c);
      assert Entity('\n')[1] == 'N' && Entity('&')[1] == 'a' && Entity('>')[1] == 'g' && Entity('<')[1] == 'l';
      assert s[1] == Entity(c)[1];
    } else {
      assert s[0] == c;
    }
  }

  // Reading the entities gives back the text, without its carriage returns.
  lemma {:induction false} EscapedIsShown(s: string, rest: string)
    ensures Shown(Escaped(s) + rest) == Without(s, '\r') + Shown(rest)
  {
    hide Entity, Shown;
    if s == [] {
      assert Escaped(s) + rest == rest && Without(s, '\r') + Shown(rest) == Shown(rest);
    } else {
      var more := Escaped(s[1..]);
      EscapedIsShown(s[1..], rest);
      ShownEntity(s[0], more + rest);
      assert Escaped(s) + rest == Entity(s[0]) + (more + rest);
    }
  }

  // No tag and no line break comes from the text. Quotes and backslashes stay as they are.
  lemma {:induction false} EscapedIsInert(s: string)
    ensures forall c :: c in Escaped(s) ==> c !in "<>\n\r"
    ensures forall c :: c in "\"\\" ==> (c in Escaped(s) <==> c in s)
  {
    if s != [] {
      EscapedIsInert(s[1..]);
      assert forall c :: c in Entity(s[0]) ==> c !in "<>\n\r";
      assert forall c :: c in s <==> c == s[0] || c in s[1..];
    }
  }
}
