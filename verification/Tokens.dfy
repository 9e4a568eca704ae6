/** Splitting a line at a separator. */
module Tokens {

  // The length of the leading run without separators.
  function WordLength(s: string, sep: char): (n: nat)
    ensures n <= |s| && sep !in s[..n]
    ensures n < |s| ==> s[n] == sep
  {
    if s == [] || s[0] == sep then 0 else 1 + WordLength(s[1..], sep)
  }

  // The maximal runs without separators, in order.
  function Fields(s: string, sep: char): seq<string>
    decreases |s|
  {
    if s == [] then []
    else if s[0] == sep then Fields(s[1..], sep)
    else [s[..WordLength(s, sep)]] + Fields(s[WordLength(s, sep)..], sep)
  }

  lemma {:induction false} FieldsArePure(s: string, sep: char)
    ensures forall t :: t in Fields(s, sep) ==> t != [] && sep !in t
    decreases |s|
  {
    if s == [] {
    } else if s[0] == sep {
      FieldsArePure(s[1..], sep);
    } else {
      FieldsArePure(s[WordLength(s, sep)..], sep);
    }
  }

  function Concat(ts: seq<string>): string {
    if ts == [] then [] else ts[0] + Concat(ts[1..])
  }

  function Without(s: string, sep: char): string {
    if s == [] then [] else (if s[0] == sep then [] else [s[0]]) + Without(s[1..], sep)
  }

  lemma {:induction false} WithoutSplit(a: string, b: string, sep: char)
    ensures Without(a + b, sep) == Without(a, sep) + Without(b, sep)
  {
    if a == [] {
      assert a + b == b;
    } else {
      assert (a + b)[1..] == a[1..] + b;
      WithoutSplit(a[1..], b, sep);
    }
  }

  lemma {:induction false} WithoutPure(s: string, sep: char)
    requires sep !in s
    ensures Without(s, sep) == s
  {
    if s == [] {
    } else {
      assert s[0] in s;
      assert s == [s[0]] + s[1..];
      WithoutPure(s[1..], sep);
    }
  }

  // Nothing but separators is lost and nothing is reordered.
  lemma {:induction false} FieldsKeepText(s: string, sep: char)
    ensures Concat(Fields(s, sep)) == Without(s, sep)
    decreases |s|
  {
    if s == [] {
    } else if s[0] == sep {
      FieldsKeepText(s[1..], sep);
    } else {
      var n := WordLength(s, sep);
      FieldsKeepText(s[n..], sep);
      assert s == s[..n] + s[n..];
      WithoutSplit(s[..n], s[n..], sep);
      WithoutPure(s[..n], sep);
    }
  }

  lemma {:induction false} WordLengthBefore(a: string, b: string, sep: char)
    ensures WordLength(a + [sep] + b, sep) == WordLength(a, sep)
  {
    var s := a + [sep] + b;
    if a == [] || a[0] == sep {
    } else {
      assert s[1..] == a[1..] + [sep] + b;
      WordLengthBefore(a[1..], b, sep);
    }
  }

  // Splitting distributes over a separator.
  lemma {:induction false} FieldsConcat(a: string, b: string, sep: char)
    ensures Fields(a + [sep] + b, sep) == Fields(a, sep) + Fields(b, sep)
    decreases |a|
  {
    var s := a + [sep] + b;
    if a == [] {
      assert s[1..] == b;
    } else if a[0] == sep {
      assert s[1..] == a[1..] + [sep] + b;
      FieldsConcat(a[1..], b, sep);
    } else {
      var n := WordLength(a, sep);
      WordLengthBefore(a, b, sep);
      assert s[..n] == a[..n];
      assert s[n..] == a[n..] + [sep] + b;
      FieldsConcat(a[n..], b, sep);
    }
  }

  lemma {:induction false} WordLengthWhole(t: string, sep: char)
    requires sep !in t
    ensures WordLength(t, sep) == |t|
  {
    if t == [] {
    } else {
      assert t[0] in t;
      WordLengthWhole(t[1..], sep);
    }
  }

  lemma FieldsOfWord(t: string, sep: char)
    requires t != [] && sep !in t
    ensures Fields(t, sep) == [t]
  {
    WordLengthWhole(t, sep);
    assert t[0] in t;
    assert t[..|t|] == t && t[|t|..] == [];
  }

  function Join(ts: seq<string>, sep: char): string {
    if ts == [] then [] else if |ts| == 1 then ts[0] else ts[0] + [sep] + Join(ts[1..], sep)
  }

  lemma {:induction false} FieldsOfJoin(ts: seq<string>, sep: char)
    requires forall t :: t in ts ==> t != [] && sep !in t
    ensures Fields(Join(ts, sep), sep) == ts
  {
    if ts == [] {
    } else {
      assert ts[0] in ts;
      FieldsOfWord(ts[0], sep);
      if |ts| > 1 {
        assert forall t :: t in ts[1..] ==> t in ts;
        FieldsOfJoin(ts[1..], sep);
        FieldsConcat(ts[0], Join(ts[1..], sep), sep);
      }
    }
  }

  // The position of the first separator at or after `begin`, or the length of s.
  function FindFrom(s: string, sep: char, begin: nat): (end: nat)
    requires begin <= |s|
    ensures begin <= end <= |s|
    ensures sep !in s[begin..end]
    ensures end < |s| ==> s[end] == sep
    decreases |s| - begin
  {
    if begin == |s| || s[begin] == sep then begin
    else
      assert s[begin..FindFrom(s, sep, begin + 1)] == [s[begin]] + s[begin + 1..FindFrom(s, sep, begin + 1)];
      FindFrom(s, sep, begin + 1)
  }

  lemma {:induction false} FindFromIs(s: string, sep: char, begin: nat, end: nat)
    requires begin <= end <= |s| && sep !in s[begin..end] && (end < |s| ==> s[end] == sep)
    ensures FindFrom(s, sep, begin) == end
    decreases end - begin
  {
    if begin < end {
      assert s[begin..end][0] == s[begin];
      assert forall c :: c in s[begin + 1..end] ==> c in s[begin..end];
      FindFromIs(s, sep, begin + 1, end);
    }
  }

  lemma FieldsOfNothing(sep: char)
    ensures Fields([], sep) == []
  {
  }

  lemma FieldsStep(s: string, sep: char, begin: nat)
    requires begin <= |s|
    ensures var end := FindFrom(s, sep, begin);
      Fields(s[begin..], sep) == (if end > begin then [s[begin..end]] else []) + (if end < |s| then Fields(s[end + 1..], sep) else [])
  {
    hide Fields, FindFrom;
    var end := FindFrom(s, sep, begin);
    var word := s[begin..end];
    FieldsOfNothing(sep);
    if end < |s| {
      assert s[begin..] == word + [sep] + s[end + 1..];
      FieldsConcat(word, s[end + 1..], sep);
    } else {
      assert s[begin..] == word;
    }
    if word != [] { FieldsOfWord(word, sep); }
  }

  method Split(s: string, sep: char) returns (result: seq<string>)
    ensures result == Fields(s, sep)
  {
    hide Fields, FindFrom;
    result := [];
    var begin := 0;
    var end := FindFrom(s, sep, begin);
    assert s[0..] == s;
    while end < |s|
      invariant 0 <= begin <= |s| && end == FindFrom(s, sep, begin)
      invariant result + Fields(s[begin..], sep) == Fields(s, sep)
      decreases |s| - begin
    {
      FieldsStep(s, sep, begin);
      if end - begin > 0 {
        result := result + [s[begin..end]];
      }
      begin := end + 1;
      end := FindFrom(s, sep, begin);
    }
    FieldsStep(s, sep, begin);
    assert s[begin..end] == s[begin..];
    if begin < |s| {
      result := result + [s[begin..]];
    }
  }
}
