/** The string operations that the modelled parsers use, with the laws their proofs need. */
module Strings {
  import opened Wrappers

  /** Unicode White_Space, which `str::trim` removes. */
  predicate IsWhitespace(c: char) {
    '\t' <= c <= '\r' || c == ' ' || c == '\U{85}' || c == '\U{A0}' || c == '\U{1680}' ||
    '\U{2000}' <= c <= '\U{200A}' || c == '\U{2028}' || c == '\U{2029}' || c == '\U{202F}' ||
    c == '\U{205F}' || c == '\U{3000}'
  }

  function TrimStart(s: string): string {
    if s != [] && IsWhitespace(s[0]) then TrimStart(s[1..]) else s
  }

  function TrimEnd(s: string): string {
    if s != [] && IsWhitespace(s[|s| - 1]) then TrimEnd(s[..|s| - 1]) else s
  }

  function Trim(s: string): string { TrimEnd(TrimStart(s)) }

  /** Nothing to trim: empty, or no whitespace at either end. */
  predicate Trimmed(s: string) {
    s == [] || (!IsWhitespace(s[0]) && !IsWhitespace(s[|s| - 1]))
  }

  lemma TrimKeepsTrimmed(s: string)
    requires Trimmed(s)
    ensures Trim(s) == s
  {
  }

  /** Position of the first occurrence of a character. */
  function IndexOf(s: string, c: char): (r: Option<nat>)
    ensures r.Some? ==> r.value < |s| && s[r.value] == c && c !in s[..r.value]
    ensures r.None? ==> c !in s
  {
    if s == [] then None
    else if s[0] == c then Some(0)
    else match IndexOf(s[1..], c)
      case None => None
      case Some(i) => Some(i + 1)
  }

  /** Position of the last occurrence of a character. */
  function LastIndexOf(s: string, c: char): (r: Option<nat>)
    ensures r.Some? ==> r.value < |s| && s[r.value] == c && c !in s[r.value + 1..]
    ensures r.None? ==> c !in s
  {
    if s == [] then None
    else if s[|s| - 1] == c then Some(|s| - 1)
    else LastIndexOf(s[..|s| - 1], c)
  }

  predicate OccursAt(pattern: string, s: string, i: nat) {
    i + |pattern| <= |s| && s[i..i + |pattern|] == pattern
  }

  /** Position of the first occurrence of a string. */
  function Find(s: string, pattern: string): (r: Option<nat>)
    requires pattern != []
    ensures r.Some? ==> OccursAt(pattern, s, r.value) && forall j :: 0 <= j < r.value ==> !OccursAt(pattern, s, j)
    ensures r.None? ==> forall j :: 0 <= j ==> !OccursAt(pattern, s, j)
  {
    FindFrom(s, pattern, 0)
  }

  function FindFrom(s: string, pattern: string, from: nat): (r: Option<nat>)
    requires pattern != [] && from <= |s|
    ensures r.Some? ==>
              from <= r.value && OccursAt(pattern, s, r.value) &&
              forall j :: from <= j < r.value ==> !OccursAt(pattern, s, j)
    ensures r.None? ==> forall j :: from <= j ==> !OccursAt(pattern, s, j)
    decreases |s| - from
  {
    if OccursAt(pattern, s, from) then Some(from)
    else if from == |s| then None
    else FindFrom(s, pattern, from + 1)
  }

  predicate Contains(s: string, pattern: string)
    requires pattern != []
  {
    Find(s, pattern).Some?
  }

  function Split(s: string, c: char): (parts: seq<string>)
    ensures parts != []
  {
    if s == [] then [[]]
    else if s[0] == c then [[]] + Split(s[1..], c)
    else var rest := Split(s[1..], c); [[s[0]] + rest[0]] + rest[1..]
  }

  lemma {:induction false} SplitWithout(s: string, c: char)
    requires c !in s
    ensures Split(s, c) == [s]
  {
    if s != [] {
      SplitWithout(s[1..], c);
      assert [s[0]] + s[1..] == s;
    }
  }

  function LowerAscii(c: char): char {
    if 'A' <= c <= 'Z' then (c as int + 32) as char else c
  }

  predicate EqIgnoreAsciiCase(a: string, b: string) {
    |a| == |b| && forall i :: 0 <= i < |a| ==> LowerAscii(a[i]) == LowerAscii(b[i])
  }

  // ----- decimal numbers

  function Digit(d: nat): char
    requires d < 10
  {
    ('0' as int + d) as char
  }

  predicate IsDigit(c: char) { '0' <= c <= '9' }

  function Decimal(n: nat): (s: string)
    ensures s != [] && forall c :: c in s ==> IsDigit(c)
  {
    if n < 10 then [Digit(n)] else Decimal(n / 10) + [Digit(n % 10)]
  }

  /** Value of a digit string, `None` if it is empty or holds anything else. */
  function DigitsValue(s: string): Option<nat> {
    if s == [] || !IsDigit(s[|s| - 1]) then None
    else
      var d: nat := s[|s| - 1] as int - '0' as int;
      if |s| == 1 then Some(d)
      else match DigitsValue(s[..|s| - 1])
        case None => None
        case Some(v) => Some(10 * v + d)
  }

  lemma {:induction false} DecimalReadsBack(n: nat)
    ensures DigitsValue(Decimal(n)) == Some(n)
  {
    if n >= 10 {
      DecimalReadsBack(n / 10);
      var s := Decimal(n);
      assert s[..|s| - 1] == Decimal(n / 10);
    }
  }

  /** `str::parse::<u16>`: an optional plus sign, digits, and a value that fits. */
  function ParseU16(s: string): Option<nat> {
    var digits := if s != [] && s[0] == '+' then s[1..] else s;
    match DigitsValue(digits)
    case None => None
    case Some(v) => if v < 0x1_0000 then Some(v) else None
  }
}
