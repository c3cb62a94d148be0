/** Quoting of Windows command-line arguments, and the C runtime's rules for taking a command line apart again. */
module Arguments {

  function Repeat(c: char, n: nat): string { seq(n, _ => c) }

  /** `u8::is_ascii_whitespace`: no vertical tab. */
  predicate IsAsciiWhitespace(c: char) { c == ' ' || c == '\t' || c == '\n' || c == '\U{0C}' || c == '\r' }

  predicate NeedsQuotes(argument: string) {
    argument == [] || exists i :: 0 <= i < |argument| && (IsAsciiWhitespace(argument[i]) || argument[i] == '"')
  }

  /** What goes between the quotes, with `backslashes` pending from before. */
  function QuotedBody(argument: string, backslashes: nat): string
    decreases |argument|
  {
    if argument == [] then Repeat('\\', backslashes * 2)
    else if argument[0] == '\\' then QuotedBody(argument[1..], backslashes + 1)
    else if argument[0] == '"' then Repeat('\\', backslashes * 2 + 1) + "\"" + QuotedBody(argument[1..], 0)
    else Repeat('\\', backslashes) + [argument[0]] + QuotedBody(argument[1..], 0)
  }

  function Quoted(argument: string): string {
    if NeedsQuotes(argument) then "\"" + QuotedBody(argument, 0) + "\"" else argument
  }

  /** One character of the body, seen from position `i`. */
  lemma BodyAt(argument: string, i: nat, backslashes: nat)
    requires i < |argument|
    ensures QuotedBody(argument[i..], backslashes) ==
      if argument[i] == '\\' then QuotedBody(argument[i + 1..], backslashes + 1)
      else Repeat('\\', if argument[i] == '"' then backslashes * 2 + 1 else backslashes) + [argument[i]]
           + QuotedBody(argument[i + 1..], 0)
  {
    assert argument[i..][1..] == argument[i + 1..];
  }

  method QuoteWindowsArgument(argument: string) returns (quoted: string)
    ensures quoted == Quoted(argument)
    ensures NextArgument(quoted, false) == (argument, "")
  {
    QuotedReadsBack(argument, "");
    assert Quoted(argument) + "" == Quoted(argument);
    if !NeedsQuotes(argument) {
      return argument;
    }
    ghost var goal := "\"" + QuotedBody(argument, 0);
    assert Quoted(argument) == goal + "\"" && QuotedBody([], 0) == [];
    quoted := "\"";
    var backslashes := 0;
    assert argument[0..] == argument;
    for i := 0 to |argument|
      invariant quoted + QuotedBody(argument[i..], backslashes) == goal
    {
      hide *;
      BodyAt(argument, i, backslashes);
      var character := argument[i];
      if character == '\\' {
        backslashes := backslashes + 1;
      } else {
        var run := Repeat('\\', if character == '"' then backslashes * 2 + 1 else backslashes);
        Regroup(quoted, run, [character], QuotedBody(argument[i + 1..], 0), "");
        quoted := quoted + run;
        quoted := quoted + [character];
        backslashes := 0;
      }
    }
    quoted := quoted + Repeat('\\', backslashes * 2);
    quoted := quoted + "\"";
  }

  function BuildArguments(args: seq<string>): string {
    if args == [] then ""
    else if |args| == 1 then Quoted(args[0])
    else Quoted(args[0]) + " " + BuildArguments(args[1..])
  }

  // ----- Microsoft's rules for parsing C command-line arguments

  predicate IsSeparator(c: char) { c == ' ' || c == '\t' }

  function LeadingBackslashes(s: string): (n: nat)
    ensures n <= |s| && (forall i :: 0 <= i < n ==> s[i] == '\\') && (n < |s| ==> s[n] != '\\')
  {
    if s != [] && s[0] == '\\' then 1 + LeadingBackslashes(s[1..]) else 0
  }

  /**
   The rest of the argument that `s` is in the middle of, and what follows it. 2n backslashes before a quote stand
   for n and the quote is a delimiter; 2n+1 stand for n and a literal quote; a doubled quote inside quotes is a
   literal one; backslashes elsewhere stand for themselves.
   */
  function NextArgument(s: string, inQuotes: bool): (r: (string, string))
    ensures |r.1| <= |s| && (s != [] && !IsSeparator(s[0]) ==> |r.1| < |s|)
    decreases |s|
  {
    var n := LeadingBackslashes(s);
    if n < |s| && s[n] == '"' then
      var head := Repeat('\\', n / 2);
      if n % 2 == 1 then
        var more := NextArgument(s[n + 1..], inQuotes); (head + "\"" + more.0, more.1)
      else if inQuotes && n + 1 < |s| && s[n + 1] == '"' then
        var more := NextArgument(s[n + 2..], inQuotes); (head + "\"" + more.0, more.1)
      else
        var more := NextArgument(s[n + 1..], !inQuotes); (head + more.0, more.1)
    else if n > 0 then
      var more := NextArgument(s[n..], inQuotes); (Repeat('\\', n) + more.0, more.1)
    else if s == [] || (!inQuotes && IsSeparator(s[0])) then ("", s)
    else
      var more := NextArgument(s[1..], inQuotes); ([s[0]] + more.0, more.1)
  }

  function ParseArguments(s: string): seq<string>
    decreases |s|
  {
    if s == [] then []
    else if IsSeparator(s[0]) then ParseArguments(s[1..])
    else var next := NextArgument(s, false); [next.0] + ParseArguments(next.1)
  }

  // ----- reading back

  lemma CountRepeated(n: nat, rest: string)
    requires |rest| == 0 || rest[0] != '\\'
    ensures LeadingBackslashes(Repeat('\\', n) + rest) == n
  {
    var s := Repeat('\\', n) + rest;
    assert n < |s| ==> s[n] == rest[0];
    assert forall i :: 0 <= i < n ==> s[i] == '\\';
  }

  /** The argument goes on after `head`. */
  function Prepend(head: string, more: (string, string)): (string, string) { (head + more.0, more.1) }

  /** One step of the parser at a quote. */
  lemma AtQuote(s: string, n: nat, inQuotes: bool)
    requires n == LeadingBackslashes(s) < |s| && s[n] == '"'
    ensures NextArgument(s, inQuotes) ==
      if n % 2 == 1 then Prepend(Repeat('\\', n / 2) + "\"", NextArgument(s[n + 1..], inQuotes))
      else if inQuotes && n + 1 < |s| && s[n + 1] == '"' then
        Prepend(Repeat('\\', n / 2) + "\"", NextArgument(s[n + 2..], inQuotes))
      else Prepend(Repeat('\\', n / 2), NextArgument(s[n + 1..], !inQuotes))
  {
    hide Repeat, LeadingBackslashes;
  }

  lemma BackslashesThenQuote(n: nat, rest: string)
    ensures var s := Repeat('\\', n) + "\"" + rest;
      && LeadingBackslashes(s) == n < |s| && s[n] == '"' && s[n + 1..] == rest
      && |s| == n + 1 + |rest| && (rest != [] ==> s[n + 1] == rest[0])
  {
    var s := Repeat('\\', n) + "\"" + rest;
    assert s == Repeat('\\', n) + ("\"" + rest);
    CountRepeated(n, "\"" + rest);
  }

  lemma DelimitingQuote(n: nat, rest: string, inQuotes: bool)
    requires !inQuotes || |rest| == 0 || rest[0] != '"'
    ensures NextArgument(Repeat('\\', 2 * n) + "\"" + rest, inQuotes)
        == Prepend(Repeat('\\', n), NextArgument(rest, !inQuotes))
  {
    hide *;
    BackslashesThenQuote(2 * n, rest);
    AtQuote(Repeat('\\', 2 * n) + "\"" + rest, 2 * n, inQuotes);
  }

  lemma LiteralQuote(n: nat, rest: string, inQuotes: bool)
    ensures NextArgument(Repeat('\\', 2 * n + 1) + "\"" + rest, inQuotes) ==
            Prepend(Repeat('\\', n) + "\"", NextArgument(rest, inQuotes))
  {
    hide *;
    BackslashesThenQuote(2 * n + 1, rest);
    AtQuote(Repeat('\\', 2 * n + 1) + "\"" + rest, 2 * n + 1, inQuotes);
  }

  lemma OrdinaryCharacter(c: char, rest: string, inQuotes: bool)
    requires c != '\\' && c != '"' && (inQuotes || !IsSeparator(c))
    ensures NextArgument([c] + rest, inQuotes) == Prepend([c], NextArgument(rest, inQuotes))
  {
    assert ([c] + rest)[1..] == rest;
  }

  lemma OrdinaryBackslashes(n: nat, rest: string, inQuotes: bool)
    requires |rest| == 0 || (rest[0] != '\\' && rest[0] != '"')
    ensures NextArgument(Repeat('\\', n) + rest, inQuotes) == Prepend(Repeat('\\', n), NextArgument(rest, inQuotes))
  {
    var s := Repeat('\\', n) + rest;
    CountRepeated(n, rest);
    assert s[n..] == rest;
    assert n < |s| ==> s[n] == rest[0];
    var more := NextArgument(rest, inQuotes);
    assert Repeat('\\', 0) + more.0 == more.0;
  }

  lemma EndOfArgument(tail: string)
    requires |tail| == 0 || IsSeparator(tail[0])
    ensures NextArgument(tail, false) == ("", tail)
  {
  }

  /** The parser, inside quotes, undoes the quoted body up to the closing quote. */
  lemma {:induction false} BodyReadsBack(argument: string, backslashes: nat, tail: string)
    requires |tail| == 0 || IsSeparator(tail[0])
    ensures NextArgument(QuotedBody(argument, backslashes) + "\"" + tail, true) ==
            (Repeat('\\', backslashes) + argument, tail)
    decreases |argument|
  {
    hide NextArgument, Repeat;
    if argument == [] {
      DelimitingQuote(backslashes, tail, true);
      EndOfArgument(tail);
    } else if argument[0] == '\\' {
      BodyReadsBack(argument[1..], backslashes + 1, tail);
      RepeatMore(backslashes, argument);
    } else {
      BodyReadsBack(argument[1..], 0, tail);
      BodyStep(argument, backslashes, QuotedBody(argument, backslashes), QuotedBody(argument[1..], 0), tail);
    }
  }

  lemma Regroup(a: string, b: string, c: string, d: string, e: string)
    ensures a + b + c + d + e == a + b + (c + d + e) == a + (b + (c + d + e))
    ensures a + (b + c + d) == a + b + c + d
  {
  }

  lemma HeadBack(head: string, argument: string)
    requires argument != []
    ensures head + [argument[0]] + (Repeat('\\', 0) + argument[1..]) == head + argument
    ensures head + ([argument[0]] + (Repeat('\\', 0) + argument[1..])) == head + argument
  {
    assert [argument[0]] + argument[1..] == argument;
  }

  /** One character that is not a backslash, given what the parser makes of the rest. */
  lemma BodyStep(argument: string, backslashes: nat, quoted: string, body: string, tail: string)
    requires argument != [] && argument[0] != '\\'
    requires quoted ==
               Repeat('\\', if argument[0] == '"' then 2 * backslashes + 1 else backslashes) + [argument[0]] + body
    requires NextArgument(body + "\"" + tail, true) == (Repeat('\\', 0) + argument[1..], tail)
    ensures NextArgument(quoted + "\"" + tail, true) == (Repeat('\\', backslashes) + argument, tail)
  {
    hide NextArgument, Repeat;
    var c, rest := argument[0], body + "\"" + tail;
    HeadBack(Repeat('\\', backslashes), argument);
    if c == '"' {
      LiteralQuote(backslashes, rest, true);
      Regroup(Repeat('\\', 2 * backslashes + 1), "\"", body, "\"", tail);
    } else {
      OrdinaryCharacter(c, rest, true);
      OrdinaryBackslashes(backslashes, [c] + rest, true);
      Regroup(Repeat('\\', backslashes), [c], body, "\"", tail);
    }
  }

  lemma RepeatMore(n: nat, argument: string)
    requires argument != [] && argument[0] == '\\'
    ensures Repeat('\\', n + 1) + argument[1..] == Repeat('\\', n) + argument
  {
  }

  /** Outside quotes it reads a plain argument as it stands. */
  lemma {:induction false} PlainReadsBack(argument: string, tail: string)
    requires forall i :: 0 <= i < |argument| ==> !IsAsciiWhitespace(argument[i]) && argument[i] != '"'
    requires |tail| == 0 || IsSeparator(tail[0])
    ensures NextArgument(argument + tail, false) == (argument, tail)
    decreases |argument|
  {
    hide NextArgument;
    var n := LeadingBackslashes(argument);
    if n == |argument| {
      EndOfArgument(tail);
      assert argument == Repeat('\\', n);
      assert argument + [] == argument;
      OrdinaryBackslashes(n, tail, false);
    } else {
      PlainReadsBack(argument[n + 1..], tail);
      PlainStep(argument, n, tail);
    }
  }

  lemma PlainStep(argument: string, n: nat, tail: string)
    requires n == LeadingBackslashes(argument) < |argument|
    requires !IsAsciiWhitespace(argument[n]) && argument[n] != '"'
    requires NextArgument(argument[n + 1..] + tail, false) == (argument[n + 1..], tail)
    ensures NextArgument(argument + tail, false) == (argument, tail)
  {
    hide NextArgument;
    var c, rest := argument[n], argument[n + 1..];
    OrdinaryCharacter(c, rest + tail, false);
    OrdinaryBackslashes(n, [c] + (rest + tail), false);
    hide LeadingBackslashes;
    assert argument == Repeat('\\', n) + ([c] + rest);
    assert argument + tail == Repeat('\\', n) + ([c] + (rest + tail));
  }

  lemma QuotedReadsBack(argument: string, tail: string)
    requires |tail| == 0 || IsSeparator(tail[0])
    ensures NextArgument(Quoted(argument) + tail, false) == (argument, tail)
    ensures Quoted(argument) != [] && !IsSeparator(Quoted(argument)[0])
  {
    hide NextArgument;
    if NeedsQuotes(argument) {
      BodyReadsBack(argument, 0, tail);
      OpeningQuote(QuotedBody(argument, 0), argument, tail);
    } else {
      PlainReadsBack(argument, tail);
    }
  }

  lemma OpeningQuote(body: string, argument: string, tail: string)
    requires NextArgument(body + "\"" + tail, true) == (Repeat('\\', 0) + argument, tail)
    ensures NextArgument("\"" + body + "\"" + tail, false) == (argument, tail)
  {
    hide NextArgument;
    DelimitingQuote(0, body + "\"" + tail, false);
    assert "\"" + body + "\"" + tail == Repeat('\\', 0) + "\"" + (body + "\"" + tail);
    assert Repeat('\\', 0) + (Repeat('\\', 0) + argument) == argument;
  }

  /** Every list of strings is read back from its command line. */
  lemma {:induction false} ArgumentsReadBack(args: seq<string>)
    ensures ParseArguments(BuildArguments(args)) == args
  {
    if |args| == 1 {
      QuotedReadsBack(args[0], "");
      assert Quoted(args[0]) + "" == Quoted(args[0]);
    } else if |args| > 1 {
      var tail := " " + BuildArguments(args[1..]);
      assert BuildArguments(args) == Quoted(args[0]) + tail;
      QuotedReadsBack(args[0], tail);
      assert BuildArguments(args)[0] == Quoted(args[0])[0];
      assert tail[1..] == BuildArguments(args[1..]);
      ArgumentsReadBack(args[1..]);
    }
  }

  /** So different lists never share a command line. */
  lemma BuildIsInjective(a: seq<string>, b: seq<string>)
    requires BuildArguments(a) == BuildArguments(b)
    ensures a == b
  {
    ArgumentsReadBack(a);
    ArgumentsReadBack(b);
  }
}
