/** Decimal numbers: the C++ `stoi` and `to_string`. */
module Numbers {
  import opened Outcomes
  import opened Commands

  predicate IsDigit(c: char) {
    '0' <= c <= '9'
  }

  function DigitValue(c: char): nat
    requires IsDigit(c)
  {
    (c - '0') as nat
  }

  function DigitChar(d: nat): (c: char)
    requires d < 10
    ensures IsDigit(c) && DigitValue(c) == d
  {
    '0' + d as char
  }

  predicate AllDigits(s: string) {
    forall c :: c in s ==> IsDigit(c)
  }

  // The length of the leading run of digits.
  function DigitRun(s: string): (n: nat)
    ensures n <= |s| && AllDigits(s[..n])
    ensures n < |s| ==> !IsDigit(s[n])
  {
    if s == [] || !IsDigit(s[0]) then 0 else 1 + DigitRun(s[1..])
  }

  function Value(s: string): nat
    requires AllDigits(s)
  {
    if s == [] then 0 else Value(s[..|s|-1]) * 10 + DigitValue(s[|s|-1])
  }

  predicate IsSpace(c: char) {
    c == ' ' || c == '\t' || c == '\n' || c == '\U{0B}' || c == '\U{0C}' || c == '\r'
  }

  function SkipSpaces(s: string): string {
    if s != [] && IsSpace(s[0]) then SkipSpaces(s[1..]) else s
  }

  // Leading white space, an optional sign, then as many digits as there are; the rest is ignored.
  function Stoi(s: string): Result<int> {
    var t := SkipSpaces(s);
    var negative := t != [] && t[0] == '-';
    var u := if t != [] && (t[0] == '-' || t[0] == '+') then t[1..] else t;
    var n := DigitRun(u);
    if n == 0 then Err(InvalidNumber)
    else
      var magnitude: int := Value(u[..n]);
      var v := if negative then -magnitude else magnitude;
      if -INT_MAX - 1 <= v <= INT_MAX then Ok(v) else Err(NumberOutOfRange)
  }

  lemma StoiRange(s: string)
    ensures Stoi(s).Ok? ==> -INT_MAX - 1 <= Stoi(s).value <= INT_MAX
  {
  }

  function ToString(n: nat): (s: string)
    ensures s != [] && AllDigits(s)
  {
    if n < 10 then [DigitChar(n)] else ToString(n / 10) + [DigitChar(n % 10)]
  }

  lemma {:induction false} ValueOfToString(n: nat)
    ensures Value(ToString(n)) == n
  {
    if n < 10 {
      assert ToString(n)[..0] == [];
    } else {
      ValueOfToString(n / 10);
      assert ToString(n)[..|ToString(n)| - 1] == ToString(n / 10);
    }
  }

  lemma {:induction false} DigitRunIs(s: string, rest: string)
    requires AllDigits(s) && (rest == [] || !IsDigit(rest[0]))
    ensures DigitRun(s + rest) == |s|
  {
    if s == [] {
      assert s + rest == rest;
    } else {
      assert (s + rest)[1..] == s[1..] + rest;
      DigitRunIs(s[1..], rest);
    }
  }

  // Reading a printed number gives it back, up to the range of int.
  lemma StoiOfToString(n: nat)
    ensures Stoi(ToString(n)) == if n <= INT_MAX then Ok(n) else Err(NumberOutOfRange)
  {
    var s := ToString(n);
    ValueOfToString(n);
    DigitRunIs(s, []);
    assert s + [] == s && s[..|s|] == s;
    assert IsDigit(s[0]);
  }

  // Text without a digit in front.
  predicate NoDigitFirst(s: string) {
    s == [] || s[0] !in "0123456789"
  }

  lemma DigitsAre(c: char)
    ensures IsDigit(c) <==> c in "0123456789"
  {
  }

  lemma {:induction false} SpacesAreSkipped(space: string, s: string)
    requires (forall c :: c in space ==> c in " \t\n\U{0B}\U{0C}\r") && (s != [] ==> s[0] !in " \t\n\U{0B}\U{0C}\r")
    ensures SkipSpaces(space + s) == s
  {
    if space == [] {
      assert space + s == s;
    } else {
      assert space[0] in space && (space + s)[0] == space[0] && (space + s)[1..] == space[1..] + s;
      SpacesAreSkipped(space[1..], s);
    }
  }

  // Main result: white space, a sign and a number, whatever stands behind its last digit, read as that
  // number, if it fits; without a digit nothing is read.
  lemma StoiReads(space: string, sign: string, n: nat, rest: string)
    requires (forall c :: c in space ==> c in " \t\n\U{0B}\U{0C}\r") && sign in ["", "+", "-"] && NoDigitFirst(rest)
    ensures var v := (if sign == "-" then -1 else 1) * n;
      Stoi(space + (sign + (ToString(n) + rest))) == if -INT_MAX - 1 <= v <= INT_MAX then Ok(v) else Err(NumberOutOfRange)
  {
    var s, u := ToString(n), ToString(n) + rest;
    DigitsLead(n, rest);
    DigitsAre(u[0]);
    SpacesAreSkipped(space, sign + u);
    StoiBehind(space + (sign + u), sign, u, |s|);
  }

  // Reading from the sign on.
  lemma StoiBehind(s: string, sign: string, u: string, n: nat)
    requires SkipSpaces(s) == sign + u && sign in ["", "+", "-"]
    requires u != [] && IsDigit(u[0]) && DigitRun(u) == n && n > 0
    ensures var v := (if sign == "-" then -1 else 1) * Value(u[..n]);
      Stoi(s) == if -INT_MAX - 1 <= v <= INT_MAX then Ok(v) else Err(NumberOutOfRange)
  {
    BehindSign(sign, u);
    hide SkipSpaces, DigitRun, Value;
  }

  // The digits of a number in front of other text.
  lemma DigitsLead(n: nat, rest: string)
    requires NoDigitFirst(rest)
    ensures var s, u := ToString(n), ToString(n) + rest;
      && u[0] in "0123456789" && DigitRun(u) == |s| && u[..|s|] == s && Value(s) == n
  {
    var s, u := ToString(n), ToString(n) + rest;
    assert IsDigit(s[0]) && u[0] == s[0];
    DigitsAre(s[0]);
    if rest != [] { DigitsAre(rest[0]); }
    DigitRunIs(s, rest);
    ValueOfToString(n);
  }

  lemma BehindSign(sign: string, u: string)
    requires sign in ["", "+", "-"]
    ensures if sign == "" then sign + u == u else (sign + u)[0] == sign[0] && (sign + u)[1..] == u
  {
  }

  lemma StoiFails(space: string, sign: string, rest: string)
    requires (forall c :: c in space ==> c in " \t\n\U{0B}\U{0C}\r") && sign in ["", "+", "-"] && NoDigitFirst(rest)
    requires sign == "" && rest != [] ==> rest[0] !in " \t\n\U{0B}\U{0C}\r+-"
    ensures Stoi(space + (sign + rest)) == Err(InvalidNumber)
  {
    SpacesAreSkipped(space, sign + rest);
    if rest != [] { DigitsAre(rest[0]); }
    BehindSign(sign, rest);
  }
}
