/** IPv4 addresses as dotted decimal text. */
module Addresses {
  import opened Bytes
  import opened Numbers
  import opened Tokens

  // Each octet in decimal, each followed by a dot.
  function Dots(octets: seq<byte>): string {
    if octets == [] then [] else ToString(octets[0] as nat) + ['.'] + Dots(octets[1..])
  }

  function Dotted(ip: seq<byte>): string
    requires |ip| == 4
  {
    Dots(ip[..3]) + ToString(ip[3] as nat)
  }

  lemma {:induction false} DotsConcat(a: seq<byte>, b: seq<byte>)
    ensures Dots(a + b) == Dots(a) + Dots(b)
  {
    if a == [] {
      assert a + b == b;
    } else {
      assert (a + b)[1..] == a[1..] + b;
      DotsConcat(a[1..], b);
    }
  }

  lemma ToStringHasNoDot(n: nat)
    ensures '.' !in ToString(n)
  {
  }

  lemma ToStringInjective(a: nat, b: nat)
    requires ToString(a) == ToString(b)
    ensures a == b
  {
    ValueOfToString(a);
    ValueOfToString(b);
  }

  // Two texts that agree up to a dot agree on what stands before it.
  lemma DotEnds(s: string, more: string, t: string, rest: string)
    requires '.' !in s && '.' !in t
    requires s + ['.'] + more <= t + ['.'] + rest
    ensures s == t && more <= rest
  {
    var right := t + ['.'] + rest;
    var longer := right[|s| + 1..];
    assert right == s + ['.'] + longer by {
      assert right[..|s| + 1] == s + ['.'];
    }
    WordLengthBefore(s, longer, '.');
    WordLengthBefore(t, rest, '.');
    WordLengthWhole(s, '.');
    WordLengthWhole(t, '.');
    assert s == right[..|s|] && t == right[..|t|];
    assert more == (s + ['.'] + more)[|s| + 1..] && rest == right[|s| + 1..];
  }

  lemma DotsPrefixStep(x: byte, more: string, y: byte, rest: string)
    ensures ToString(x as nat) + ['.'] + more <= ToString(y as nat) + ['.'] + rest <==> x == y && more <= rest
  {
    if ToString(x as nat) + ['.'] + more <= ToString(y as nat) + ['.'] + rest {
      ToStringHasNoDot(x as nat);
      ToStringHasNoDot(y as nat);
      DotEnds(ToString(x as nat), more, ToString(y as nat), rest);
      ToStringInjective(x as nat, y as nat);
    }
  }

  lemma PrefixStep(a: seq<byte>, b: seq<byte>)
    requires a != [] && b != []
    ensures a <= b <==> a[0] == b[0] && a[1..] <= b[1..]
  {
    assert a == [a[0]] + a[1..] && b == [b[0]] + b[1..];
  }

  // Textual prefix is octet prefix, as long as an octet is left over.
  lemma {:induction false} DotsPrefix(a: seq<byte>, b: seq<byte>, last: nat)
    ensures Dots(a) <= Dots(b) + ToString(last) <==> a <= b
  {
    if a == [] {
    } else if b == [] {
      ToStringHasNoDot(last);
      assert Dots(a)[|ToString(a[0] as nat)|] == '.';
    } else {
      DotsPrefix(a[1..], b[1..], last);
      var rest := Dots(b[1..]) + ToString(last);
      DotsPrefixStep(a[0], Dots(a[1..]), b[0], rest);
      assert Dots(b) + ToString(last) == ToString(b[0] as nat) + ['.'] + rest;
      PrefixStep(a, b);
    }
  }

  lemma DottedInjective(a: seq<byte>, b: seq<byte>)
    requires |a| == 4 && |b| == 4 && Dotted(a) == Dotted(b)
    ensures a == b
  {
    DotsPrefix(a[..3], b[..3], b[3] as nat);
    assert Dots(a[..3]) <= Dotted(a);
    ToStringInjective(a[3] as nat, b[3] as nat) by {
      assert a[..3] == b[..3];
      var n := |Dots(a[..3])|;
      assert Dotted(a)[n..] == ToString(a[3] as nat) && Dotted(b)[n..] == ToString(b[3] as nat);
    }
    assert a == a[..3] + [a[3]] && b == b[..3] + [b[3]];
  }
}
