/** Positions and substrings with the 64-bit unsigned arithmetic of C++ strings. */
module Texts {
  import opened Outcomes
  import opened Tokens

  // What a search returns when it finds nothing.
  const NPOS := 0xFFFF_FFFF_FFFF_FFFF

  // a - b on 64-bit unsigned integers, for operands in range.
  function Minus(a: nat, b: nat): nat
    requires b <= NPOS
  {
    if a >= b then a - b else a - b + 0x1_0000_0000_0000_0000
  }

  function Take(s: string, n: nat): string {
    if n < |s| then s[..n] else s
  }

  function Substr(s: string, pos: nat, n: nat): Result<string> {
    if pos > |s| then Err(PositionOutOfRange) else Ok(Take(s[pos..], n))
  }

  // The first position of a character.
  function FindChar(s: string, c: char): nat {
    var n := WordLength(s, c);
    if n < |s| then n else NPOS
  }

  // The first position of a text.
  function FindText(s: string, p: string): (r: Option<nat>)
    ensures r.Some? ==> r.value <= |s|
  {
    if p <= s then Some(0)
    else if s == [] then None
    else
      match FindText(s[1..], p)
      case None => None
      case Some(n) => Some(n + 1)
  }

  function Position(found: Option<nat>): nat {
    if found.Some? then found.value else NPOS
  }

  // The position n places behind a found text; behind an absent one the addition wraps around.
  function Behind(found: Option<nat>, n: nat): nat
    requires n > 0
  {
    if found.Some? then found.value + n else n - 1
  }

  // A text that begins with a separator is not found inside text without that separator.
  lemma {:induction false} FindTextSkips(a: string, s: string, p: string)
    requires p != [] && p[0] !in a
    ensures FindText(a + s, p) == match FindText(s, p) case None => None case Some(n) => Some(|a| + n)
  {
    if a == [] {
      assert a + s == s;
    } else {
      assert (a + s)[0] != p[0];
      assert (a + s)[1..] == a[1..] + s;
      FindTextSkips(a[1..], s, p);
    }
  }
}
