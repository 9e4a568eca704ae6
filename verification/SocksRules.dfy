/** The rule file of the SOCKS server: textual address rules. */
module SocksRules {
  import opened Addresses
  import opened Bytes
  import opened Outcomes
  import opened Socks
  import opened Texts
  import opened Tokens

  // ----- The C and C++ text functions that the check uses -------------------------------------------------

  // What a C function sees of a text: everything before the first NUL.
  function Visible(s: string): string {
    s[..WordLength(s, '\0')]
  }

  // strncmp(a, b, n) == 0
  predicate SameUpTo(a: string, b: string, n: nat) {
    Take(Visible(a) + ['\0'], n) == Take(Visible(b) + ['\0'], n)
  }

  // One rule against one address; a rule that ends before its address part is an exception.
  function Matches(line: string, ip: string): Result<bool> {
    var length := Minus(FindChar(line, '*'), 9);
    match Substr(line, 9, length)
    case Err(e) => Err(e)
    case Ok(p) => Ok(SameUpTo(ip, p, length))
  }

  // The letter that marks a rule for CONNECT or for BIND.
  function Letter(command: nat): char {
    if command == 1 then 'c' else 'b'
  }

  // `line[7]` of a line with exactly seven characters is its terminator.
  predicate IsRuleFor(line: string, letter: char)
    requires |line| >= 7
  {
    |line| > 7 && line[7] == letter
  }

  // The first rule of the kind decides; without one the answer is no.
  function FirstRule(lines: seq<string>, letter: char, ip: string): Result<bool>
    requires forall line :: line in lines ==> |line| >= 7
  {
    if lines == [] then Ok(false)
    else if IsRuleFor(lines[0], letter) then Matches(lines[0], ip)
    else FirstRule(lines[1..], letter, ip)
  }

  // What the rule file says of a request.
  function Permission(request: Request, lines: seq<string>): Result<bool>
    requires forall line :: line in lines ==> |line| >= 7
  {
    if request.command == 1 || request.command == 2 then FirstRule(lines, Letter(request.command), request.ip)
    else Ok(false)
  }

  method CheckPermission(request: Request, lines: seq<string>) returns (permit: Result<bool>)
    requires forall line :: line in lines ==> |line| >= 7
    ensures permit == Permission(request, lines)
  {
    permit := Ok(false);
    if request.command == 1 || request.command == 2 {
      var letter := if request.command == 1 then 'c' else 'b';
      assert lines[0..] == lines;
      var k := 0;
      while k < |lines|
        invariant 0 <= k <= |lines| && permit == Ok(false)
        invariant FirstRule(lines, letter, request.ip) == FirstRule(lines[k..], letter, request.ip)
      {
        var line := lines[k];
        assert line in lines && lines[k..][1..] == lines[k + 1..];
        if |line| > 7 && line[7] == letter {
          permit := Matches(line, request.ip);
          break;
        }
        k := k + 1;
      }
    }
  }

  // ----- What a rule permits ------------------------------------------------------------------------------

  const NUL := '\0'

  lemma {:induction false} DotsArePlain(octets: seq<byte>)
    ensures NUL !in Dots(octets) && '*' !in Dots(octets)
  {
    if octets != [] {
      DotsArePlain(octets[1..]);
    }
  }

  lemma DottedIsPlain(ip: seq<byte>)
    requires |ip| == 4
    ensures NUL !in Dotted(ip) && '*' !in Dotted(ip)
  {
    DotsArePlain(ip[..3]);
  }

  // On texts without NUL, comparing as many characters as the pattern has is asking for a prefix,
  // and comparing more is asking for equality.
  lemma SameUpToIs(a: string, p: string, n: nat)
    requires NUL !in a && NUL !in p && |p| <= n
    ensures SameUpTo(a, p, n) <==> if |p| == n then p <= a else a == p
  {
    WordLengthWhole(a, NUL);
    WordLengthWhole(p, NUL);
    assert Visible(a) == a && Visible(p) == p;
    var ta, tp := Take(a + [NUL], n), Take(p + [NUL], n);
    if n <= |a| {
      assert ta == a[..n] && NUL !in ta;
      assert |p| < n ==> tp[|p|] == NUL;
    } else {
      assert ta == a + [NUL] && ta[|a|] == NUL;
      assert |p| < n ==> tp == p + [NUL];
      assert a == ta[..|ta| - 1] && (|p| < n ==> p == tp[..|tp| - 1]);
    }
  }

  // "permit c " or "permit b " before the address part; only the length and the letter matter.
  predicate Heading(head: string) {
    |head| == 9 && '*' !in head
  }

  lemma StarRule(head: string, octets: seq<byte>, rest: string, ip: seq<byte>)
    requires Heading(head) && |ip| == 4
    ensures Matches(head + Dots(octets) + ['*'] + rest, Dotted(ip)) == Ok(Dots(octets) <= Dotted(ip))
  {
    var line := head + Dots(octets) + ['*'] + rest;
    DotsArePlain(octets);
    DottedIsPlain(ip);
    WordLengthBefore(head + Dots(octets), rest, '*');
    WordLengthWhole(head + Dots(octets), '*');
    assert Minus(FindChar(line, '*'), 9) == |Dots(octets)|;
    assert Take(line[9..], |Dots(octets)|) == Dots(octets);
    SameUpToIs(Dotted(ip), Dots(octets), |Dots(octets)|);
  }

  // A dotted address ends in its fourth octet, without a dot: four octets with their dots never fit.
  lemma DotsFit(octets: seq<byte>, ip: seq<byte>)
    requires |ip| == 4
    ensures Dots(octets) <= Dotted(ip) <==> octets <= ip[..3]
  {
    DotsPrefix(octets, ip[..3], ip[3] as nat);
  }

  // Main result: the first rule of the request's kind, written as octets each followed by a dot and
  // then a star, permits exactly the addresses whose first octets agree, for up to three octets, and
  // nothing at all beyond three. Neither the other kind's rules nor anything behind the star count.
  lemma {:induction false} PrefixRuleDecides(before: seq<string>, head: string, octets: seq<byte>, rest: string,
      after: seq<string>, ip: seq<byte>)
    requires Heading(head) && |ip| == 4
    requires forall line :: line in before + after ==> |line| >= 7
    requires forall line :: line in before ==> !IsRuleFor(line, head[7])
    ensures var rule := head + Dots(octets) + ['*'] + rest;
      var lines := before + [rule] + after;
      && (forall line :: line in lines ==> |line| >= 7)
      && FirstRule(lines, head[7], Dotted(ip)) == Ok(|octets| <= 3 && octets == ip[..|octets|])
  {
    var rule := head + Dots(octets) + ['*'] + rest;
    var lines := before + [rule] + after;
    if before == [] {
      assert lines[0] == rule && rule[7] == head[7];
      StarRule(head, octets, rest, ip);
      DotsFit(octets, ip);
      assert octets <= ip[..3] <==> |octets| <= 3 && octets == ip[..|octets|];
    } else {
      assert before[0] in before;
      assert lines[0] == before[0] && lines[1..] == before[1..] + [rule] + after;
      PrefixRuleDecides(before[1..], head, octets, rest, after, ip);
    }
  }

  // How a line of the rule file begins: `permit c` is for CONNECT, `permit b` for BIND.
  const CONNECT := "permit c "
  const BIND := "permit b "

  // The line cannot be taken for a rule about this command.
  predicate Beside(line: string, command: nat) {
    |line| >= 7 && (|line| > 7 ==> line[7] != if command == 1 then 'c' else 'b')
  }

  lemma BesideIsNoRule(line: string, command: nat)
    requires Beside(line, command) && (command == 1 || command == 2)
    ensures |line| >= 7 && !IsRuleFor(line, Letter(command))
  {
  }

  // Main result for a request: the first line for its command, written out, decides, whatever lines of
  // the other kind stand around it.
  lemma RequestIsDecided(request: Request, before: seq<string>, octets: seq<byte>, rest: string, after: seq<string>, ip: seq<byte>)
    requires (request.command == 1 || request.command == 2) && |ip| == 4 && request.ip == Dotted(ip)
    requires forall line :: line in before ==> Beside(line, request.command)
    requires forall line :: line in after ==> |line| >= 7
    ensures var rule := (if request.command == 1 then CONNECT else BIND) + Dots(octets) + ['*'] + rest;
      var lines := before + [rule] + after;
      && (forall line :: line in lines ==> |line| >= 7)
      && Permission(request, lines) == Ok(|octets| <= 3 && octets == ip[..|octets|])
  {
    var head := if request.command == 1 then CONNECT else BIND;
    HeadingIs(request.command);
    AllBeside(before, request.command);
    hide *;
    PrefixRuleDecides(before, head, octets, rest, after, ip);
    PermissionIs(request, before + [head + Dots(octets) + ['*'] + rest] + after);
  }

  lemma HeadingIs(command: nat)
    requires command == 1 || command == 2
    ensures var head := if command == 1 then CONNECT else BIND; Heading(head) && head[7] == Letter(command) && IsRuleFor(head, Letter(command))
  {
  }

  lemma AllBeside(lines: seq<string>, command: nat)
    requires (forall line :: line in lines ==> Beside(line, command)) && (command == 1 || command == 2)
    ensures forall line :: line in lines ==> |line| >= 7 && !IsRuleFor(line, Letter(command))
  {
    forall line | line in lines ensures |line| >= 7 && !IsRuleFor(line, Letter(command)) {
      BesideIsNoRule(line, command);
    }
  }

  lemma PermissionIs(request: Request, lines: seq<string>)
    requires (request.command == 1 || request.command == 2) && forall line :: line in lines ==> |line| >= 7
    ensures Permission(request, lines) == FirstRule(lines, Letter(request.command), request.ip)
  {
  }

  // A line for the command that stops after its letter is one too, and fails.
  lemma ShortRuleFails(request: Request, before: seq<string>, after: seq<string>)
    requires request.command == 1 || request.command == 2
    requires (forall line :: line in before ==> Beside(line, request.command)) && forall line :: line in after ==> |line| >= 7
    ensures var lines := before + [if request.command == 1 then "permit c" else "permit b"] + after;
      (forall line :: line in lines ==> |line| >= 7) && Permission(request, lines).Err?
  {
    var rule := if request.command == 1 then "permit c" else "permit b";
    AllBeside(before, request.command);
    FirstIsRule(before, rule, after, Letter(request.command), request.ip);
    PermissionIs(request, before + [rule] + after);
  }

  // One that stops right before its address part permits nothing.
  lemma EmptyRuleRefuses(request: Request, before: seq<string>, after: seq<string>)
    requires (request.command == 1 || request.command == 2) && request.ip != [] && NUL !in request.ip
    requires (forall line :: line in before ==> Beside(line, request.command)) && forall line :: line in after ==> |line| >= 7
    ensures var lines := before + [if request.command == 1 then CONNECT else BIND] + after;
      (forall line :: line in lines ==> |line| >= 7) && Permission(request, lines) == Ok(false)
  {
    var rule := if request.command == 1 then CONNECT else BIND;
    HeadingIs(request.command);
    AllBeside(before, request.command);
    hide *;
    FirstIsRule(before, rule, after, Letter(request.command), request.ip);
    PermissionIs(request, before + [rule] + after);
    BareRule(rule, request.ip);
  }

  lemma BareRule(rule: string, ip: string)
    requires Heading(rule) && ip != [] && NUL !in ip
    ensures Matches(rule, ip) == Ok(false)
  {
    WordLengthWhole(rule, '*');
    assert rule[9..] == [];
    SameUpToIs(ip, [], 0xFFFF_FFFF_FFFF_FFF6);
  }

  lemma {:induction false} FirstIsRule(before: seq<string>, rule: string, after: seq<string>, letter: char, ip: string)
    requires |rule| >= 7 && IsRuleFor(rule, letter) && (forall line :: line in before + after ==> |line| >= 7)
    requires forall line :: line in before ==> !IsRuleFor(line, letter)
    ensures forall line :: line in before + [rule] + after ==> |line| >= 7
    ensures FirstRule(before + [rule] + after, letter, ip) == Matches(rule, ip)
  {
    var lines := before + [rule] + after;
    if before == [] {
      assert lines[0] == rule;
    } else {
      assert before[0] in before && lines[0] == before[0] && lines[1..] == before[1..] + [rule] + after;
      FirstIsRule(before[1..], rule, after, letter, ip);
    }
  }

  // Without a line for its command, or with another command, a request is refused.
  lemma RequestIsRefused(request: Request, lines: seq<string>)
    requires forall line :: line in lines ==> |line| >= 7
    requires (request.command == 1 || request.command == 2) ==> forall line :: line in lines ==> Beside(line, request.command)
    ensures Permission(request, lines) == Ok(false)
  {
    if request.command == 1 || request.command == 2 {
      AllBeside(lines, request.command);
      NoRuleRefuses(lines, Letter(request.command), request.ip);
    }
  }

  // A rule without a star permits one address only.
  lemma FullRule(head: string, other: seq<byte>, ip: seq<byte>)
    requires Heading(head) && |other| == 4 && |ip| == 4
    requires |head + Dotted(other)| < 0x8000_0000_0000_0000
    ensures Matches(head + Dotted(other), Dotted(ip)) == Ok(other == ip)
  {
    var line := head + Dotted(other);
    DottedIsPlain(other);
    DottedIsPlain(ip);
    WordLengthWhole(line, '*');
    assert line[9..] == Dotted(other);
    SameUpToIs(Dotted(ip), Dotted(other), 0xFFFF_FFFF_FFFF_FFF6);
    if Dotted(other) == Dotted(ip) { DottedInjective(other, ip); }
  }

  // Without a rule of the kind nothing is permitted.
  lemma {:induction false} NoRuleRefuses(lines: seq<string>, letter: char, ip: string)
    requires forall line :: line in lines ==> |line| >= 7 && !IsRuleFor(line, letter)
    ensures FirstRule(lines, letter, ip) == Ok(false)
  {
    if lines != [] {
      assert lines[0] in lines;
      NoRuleRefuses(lines[1..], letter, ip);
    }
  }
}
