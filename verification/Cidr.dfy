/** Turning an IPv4 block into the wildcards of the proxy bypass list. */
module Cidr {
  import opened Wrappers
  import opened Strings

  type Octet = x: int | 0 <= x < 256

  /** An address as four octets. */
  type Address = a: seq<Octet> | |a| == 4 witness [0, 0, 0, 0]

  // ----- blocks (section 3.1 of RFC 4632): the addresses that agree on the first `prefix` bits

  /** How many of the leading bits fall into octet `i`. */
  function Bits(prefix: nat, i: nat): (bits: nat)
    requires i < 4
    ensures bits <= 8
  {
    if prefix <= 8 * i then 0 else if prefix >= 8 * i + 8 then 8 else prefix - 8 * i
  }

  /** Number of values an octet can take when `bits` of its leading bits are fixed. */
  function Width(bits: nat): (w: nat)
    requires bits <= 8
    ensures w >= 1
  {
    match bits
    case 0 => 256
    case 1 => 128
    case 2 => 64
    case 3 => 32
    case 4 => 16
    case 5 => 8
    case 6 => 4
    case 7 => 2
    case _ => 1
  }

  predicate InBlock(network: Address, prefix: nat, address: Address) {
    forall i :: 0 <= i < 4 ==>
      var w := Width(Bits(prefix, i)); address[i] / w == network[i] / w
  }

  /** Octet `i` of the first and of the last address of the block. */
  function First(network: Address, prefix: nat, i: nat): Octet
    requires i < 4
  {
    FirstInRange(network[i], Bits(prefix, i));
    var w := Width(Bits(prefix, i));
    network[i] / w * w
  }

  function Last(network: Address, prefix: nat, i: nat): Octet
    requires i < 4
  {
    FirstInRange(network[i], Bits(prefix, i));
    var w := Width(Bits(prefix, i));
    network[i] / w * w + w - 1
  }

  lemma FirstInRange(octet: Octet, bits: nat)
    requires bits <= 8
    ensures var w := Width(bits); 0 <= octet / w * w && octet / w * w + w - 1 < 256
  {
  }

  /** An octet agrees on the leading bits exactly when it lies in the octet's range. */
  lemma OctetInRange(octet: Octet, other: Octet, bits: nat)
    requires bits <= 8
    ensures var w := Width(bits);
      other / w == octet / w <==> octet / w * w <= other <= octet / w * w + w - 1
  {
  }

  /** The address in dotted form, from octet `i` on. */
  function DottedFrom(a: Address, i: nat): string
    requires i < 4
    decreases 4 - i
  {
    if i == 3 then Decimal(a[3]) else Decimal(a[i]) + "." + DottedFrom(a, i + 1)
  }

  function Dotted(a: Address): string { DottedFrom(a, 0) }

  // ----- the conversion

  /** `Error` when a part is not a number; the library that takes the block apart only returns numbers. */
  datatype Result = Ok(wildcards: seq<string>) | Error

  /** The loop from octet `i` on, with the text built so far. */
  function Wildcards(start: seq<string>, end: seq<string>, i: nat, each: string): Result
    requires |start| == |end| == 4 && i <= 4
    decreases 4 - i
  {
    if i == 4 then Ok([])
    else if start[i] == end[i] then Wildcards(start, end, i + 1, each + start[i] + (if i != 3 then "." else ""))
    else if start[i] == "0" && end[i] == "255" then Ok([each + "*"])
    else
      var s, e := ParseU16(start[i]), ParseU16(end[i]);
      if s.None? || e.None? then Error else Ok(Enumerated(each, i, s.value, e.value + 1))
  }

  /** One wildcard for every value from `from` up to, but not including, `to`. */
  function Enumerated(each: string, i: nat, from: nat, to: nat): seq<string>
    decreases if from < to then to - from else 0
  {
    if from >= to then []
    else [each + Decimal(from) + (if i != 3 then ".*" else "")] + Enumerated(each, i, from + 1, to)
  }

  lemma {:induction false} EnumeratedAppends(each: string, i: nat, from: nat, to: nat)
    requires from <= to
    ensures Enumerated(each, i, from, to + 1) ==
            Enumerated(each, i, from, to) + [each + Decimal(to) + (if i != 3 then ".*" else "")]
    decreases if from < to then to - from else 0
  {
    if from < to {
      EnumeratedAppends(each, i, from + 1, to);
    }
  }

  method CidrToWildcard(start: seq<string>, end: seq<string>) returns (r: Result)
    requires |start| == |end| == 4
    ensures r == Wildcards(start, end, 0, "")
  {
    var ret: seq<string> := [];
    var each := "";
    var i := 0;
    while i < 4
      invariant 0 <= i <= 4 && ret == []
      invariant Wildcards(start, end, i, each) == Wildcards(start, end, 0, "")
    {
      if start[i] == end[i] {
        var part := if i != 3 then "." else "";
        each := each + start[i] + part;
        i := i + 1;
        continue;
      }
      if start[i] == "0" && end[i] == "255" {
        return Ok([each + "*"]);
      }
      var s, e := ParseU16(start[i]), ParseU16(end[i]);
      if s.None? || e.None? {
        return Error;
      }
      var j: int := s.value;
      while j < e.value + 1
        invariant s.value <= j
        invariant j == s.value || j <= e.value + 1
        invariant ret == Enumerated(each, i, s.value, j)
        decreases e.value + 1 - j
      {
        var builder := each + Decimal(j);
        if i != 3 {
          builder := builder + ".*";
        }
        EnumeratedAppends(each, i, s.value, j);
        assert builder == each + Decimal(j) + (if i != 3 then ".*" else "");
        ret := ret + [builder];
        j := j + 1;
      }
      return Ok(ret);
    }
    return Ok([]);
  }

  /** Bounds of the block as the library prints them. */
  function Texts(network: Address, prefix: nat, last: bool): (parts: seq<string>)
    ensures |parts| == 4
    ensures forall i :: 0 <= i < 4 ==>
              parts[i] == Decimal(if last then Last(network, prefix, i) else First(network, prefix, i))
  {
    seq(4, i requires 0 <= i < 4 => Decimal(if last then Last(network, prefix, i) else First(network, prefix, i)))
  }

  /** The whole conversion of a block. */
  function BlockWildcards(network: Address, prefix: nat): Result {
    Wildcards(Texts(network, prefix, false), Texts(network, prefix, true), 0, "")
  }

  // ----- matching

  /** A trailing star matches anything, everything else itself. */
  predicate Matches(wildcard: string, text: string) {
    if wildcard != "" && wildcard[|wildcard| - 1] == '*' then wildcard[..|wildcard| - 1] <= text
    else wildcard == text
  }

  // ----- dotted text and octets

  lemma NoDots(n: nat)
    ensures forall i :: 0 <= i < |Decimal(n)| ==> Decimal(n)[i] != '.' && Decimal(n)[i] != '*'
  {
    assert forall i :: 0 <= i < |Decimal(n)| ==> Decimal(n)[i] in Decimal(n);
  }

  lemma DecimalInjective(x: nat, y: nat)
    ensures Decimal(x) == Decimal(y) <==> x == y
  {
    DecimalReadsBack(x);
    DecimalReadsBack(y);
  }

  /** Two texts without dots, each followed by one. */
  lemma DotSplit(a: string, b: string, p: string, q: string)
    requires forall i :: 0 <= i < |a| ==> a[i] != '.'
    requires forall i :: 0 <= i < |b| ==> b[i] != '.'
    ensures a + "." + p <= b + "." + q <==> a == b && p <= q
  {
    var s, t := a + "." + p, b + "." + q;
    if a == b && p <= q {
      assert q == p + q[|p|..];
      assert t == s + q[|p|..];
    }
    if s <= t {
      assert forall i :: 0 <= i < |s| ==> s[i] == t[i];
      assert s[|a|] == '.' && t[|b|] == '.';
      assert |a| == |b|;
      assert a == s[..|a|] == t[..|a|] == b;
      assert p == s[|a| + 1..] && q == t[|b| + 1..];
      assert forall i :: 0 <= i < |p| ==> p[i] == s[|a| + 1 + i];
    }
  }

  /** Octets `i` up to `k`, each followed by a dot. */
  function Lead(a: Address, i: nat, k: nat): string
    requires i <= k < 4
    decreases k - i
  {
    if i == k then "" else Decimal(a[i]) + "." + Lead(a, i + 1, k)
  }

  ghost predicate Agree(a: Address, b: Address, i: nat, k: nat)
    requires k <= 4
  {
    forall x :: i <= x < k ==> a[x] == b[x]
  }

  lemma DotSplitEqual(a: string, b: string, p: string, q: string)
    requires forall i :: 0 <= i < |a| ==> a[i] != '.'
    requires forall i :: 0 <= i < |b| ==> b[i] != '.'
    ensures a + "." + p == b + "." + q <==> a == b && p == q
  {
    if a + "." + p == b + "." + q {
      DotSplit(a, b, p, q);
      DotSplit(b, a, q, p);
    }
  }

  /** How the texts of two addresses begin, from octet `i` on. */
  lemma TextsBegin(a: Address, t: Address, i: nat, k: nat, p: string)
    requires i < k < 4
    ensures Lead(a, i, k) + p == Decimal(a[i]) + "." + (Lead(a, i + 1, k) + p)
    ensures DottedFrom(t, i) == Decimal(t[i]) + "." + DottedFrom(t, i + 1)
  {
    assert Lead(a, i, k) == Decimal(a[i]) + "." + Lead(a, i + 1, k);
    Associates(Decimal(a[i]) + ".", Lead(a, i + 1, k), p);
  }

  lemma Associates(a: string, b: string, c: string)
    ensures a + b + c == a + (b + c)
  {
  }

  lemma {:induction false} LeadBegins(a: Address, t: Address, i: nat, k: nat, p: string)
    requires i <= k < 4
    ensures Lead(a, i, k) + p <= DottedFrom(t, i) <==> Agree(a, t, i, k) && p <= DottedFrom(t, k)
    decreases k - i
  {
    if i == k {
      assert Lead(a, i, k) + p == p;
    } else {
      LeadBegins(a, t, i + 1, k, p);
      TextsBegin(a, t, i, k, p);
      NoDots(a[i]);
      NoDots(t[i]);
      DecimalInjective(a[i], t[i]);
      AgreeSplits(a, t, i, k);
      hide Lead, DottedFrom, Decimal, Agree;
      DotSplit(Decimal(a[i]), Decimal(t[i]), Lead(a, i + 1, k) + p, DottedFrom(t, i + 1));
    }
  }

  lemma {:induction false} LeadEquals(a: Address, t: Address, i: nat, k: nat, p: string)
    requires i <= k < 4
    ensures Lead(a, i, k) + p == DottedFrom(t, i) <==> Agree(a, t, i, k) && p == DottedFrom(t, k)
    decreases k - i
  {
    if i == k {
      assert Lead(a, i, k) + p == p;
    } else {
      LeadEquals(a, t, i + 1, k, p);
      TextsBegin(a, t, i, k, p);
      NoDots(a[i]);
      NoDots(t[i]);
      DecimalInjective(a[i], t[i]);
      AgreeSplits(a, t, i, k);
      hide Lead, DottedFrom, Decimal, Agree;
      DotSplitEqual(Decimal(a[i]), Decimal(t[i]), Lead(a, i + 1, k) + p, DottedFrom(t, i + 1));
    }
  }

  lemma AgreeSplits(a: Address, b: Address, i: nat, k: nat)
    requires i < k <= 4
    ensures Agree(a, b, i, k) <==> a[i] == b[i] && Agree(a, b, i + 1, k)
  {
  }

  lemma LeadMatches(a: Address, t: Address, i: nat, k: nat, p: string)
    requires i <= k < 4
    ensures Lead(a, i, k) + p <= DottedFrom(t, i) <==> Agree(a, t, i, k) && p <= DottedFrom(t, k)
    ensures Lead(a, i, k) + p == DottedFrom(t, i) <==> Agree(a, t, i, k) && p == DottedFrom(t, k)
  {
    hide Lead, DottedFrom, Agree;
    LeadBegins(a, t, i, k, p);
    LeadEquals(a, t, i, k, p);
  }

  lemma {:induction false} LeadAppends(a: Address, i: nat, k: nat)
    requires i <= k < 3
    ensures Lead(a, i, k + 1) == Lead(a, i, k) + Decimal(a[k]) + "."
    decreases k - i
  {
    if i < k {
      LeadAppends(a, i + 1, k);
    }
  }

  /** What a wildcard for one value matches, by the kind of its end. */
  lemma EndsInDigit(lead: string, value: nat, text: string)
    ensures Matches(lead + Decimal(value) + "", text) <==> lead + Decimal(value) == text
  {
    var w := lead + Decimal(value) + "";
    NoDots(value);
    hide Decimal;
    assert w == lead + Decimal(value);
    assert w[|w| - 1] == Decimal(value)[|Decimal(value)| - 1];
  }

  lemma EndsInStar(lead: string, value: nat, text: string)
    ensures Matches(lead + Decimal(value) + ".*", text) <==> lead + (Decimal(value) + ".") <= text
  {
    var w := lead + Decimal(value) + ".*";
    hide Decimal;
    assert w[..|w| - 1] == lead + (Decimal(value) + ".");
  }

  /** The wildcard for one value of octet `k` matches exactly the addresses with the leading octets and that value. */
  lemma ValueMatches(a: Address, t: Address, k: nat, value: Octet)
    requires k < 4
    ensures Matches(Lead(a, 0, k) + Decimal(value) + (if k != 3 then ".*" else ""), Dotted(t)) <==>
            Agree(a, t, 0, k) && t[k] == value
  {
    NoDots(value);
    NoDots(t[k]);
    DecimalInjective(value, t[k]);
    if k == 3 {
      EndsInDigit(Lead(a, 0, k), value, Dotted(t));
      LeadMatches(a, t, 0, 3, Decimal(value));
    } else {
      EndsInStar(Lead(a, 0, k), value, Dotted(t));
      LeadMatches(a, t, 0, k, Decimal(value) + ".");
      hide Matches, Decimal, Lead;
      assert Decimal(value) + "." == Decimal(value) + "." + "";
      DotSplit(Decimal(value), Decimal(t[k]), "", DottedFrom(t, k + 1));
    }
  }

  lemma StarMatches(a: Address, t: Address, k: nat)
    requires k < 4
    ensures Matches(Lead(a, 0, k) + "*", Dotted(t)) <==> Agree(a, t, 0, k)
  {
    var w := Lead(a, 0, k) + "*";
    assert w[..|w| - 1] == Lead(a, 0, k) + "";
    LeadMatches(a, t, 0, k, "");
  }

  // ----- the block, octet by octet

  lemma BlockByOctets(network: Address, prefix: nat, address: Address)
    requires prefix < 32
    ensures var k := prefix / 8;
      InBlock(network, prefix, address) <==>
        Agree(network, address, 0, k) && First(network, prefix, k) <= address[k] <= Last(network, prefix, k)
  {
    var k := prefix / 8;
    OctetInRange(network[k], address[k], Bits(prefix, k));
    assert forall i :: 0 <= i < k ==> Width(Bits(prefix, i)) == 1;
    assert forall i :: k < i < 4 ==> Width(Bits(prefix, i)) == 256;
    assert forall i :: k < i < 4 ==> address[i] / 256 == 0 == network[i] / 256;
  }

  lemma OctetBounds(network: Address, prefix: nat)
    requires prefix <= 32
    ensures forall i :: 0 <= i < prefix / 8 ==> First(network, prefix, i) == Last(network, prefix, i) == network[i]
    ensures prefix < 32 ==> var k := prefix / 8;
      && First(network, prefix, k) < Last(network, prefix, k)
      && (prefix % 8 == 0 <==> First(network, prefix, k) == 0 && Last(network, prefix, k) == 255)
  {
    assert forall i :: 0 <= i < prefix / 8 ==> Width(Bits(prefix, i)) == 1;
    if prefix < 32 {
      var k := prefix / 8;
      assert Bits(prefix, k) == prefix % 8;
      FirstInRange(network[k], Bits(prefix, k));
    }
  }

  /** The loop walks over the octets that the prefix fixes completely. */
  lemma {:induction false} LoopSkips(network: Address, prefix: nat, i: nat)
    requires prefix < 32 && i <= prefix / 8
    ensures BlockWildcards(network, prefix) ==
            Wildcards(Texts(network, prefix, false), Texts(network, prefix, true), i, Lead(network, 0, i))
  {
    if i > 0 {
      LoopSkips(network, prefix, i - 1);
      OctetBounds(network, prefix);
      LeadAppends(network, 0, i - 1);
    }
  }

  /** What the loop returns: one star, or one wildcard for every value of the octet where the prefix ends. */
  lemma LoopEnds(network: Address, prefix: nat)
    requires prefix < 32
    ensures var k := prefix / 8; var lead := Lead(network, 0, k);
      BlockWildcards(network, prefix) ==
        Ok(if prefix % 8 == 0 then [lead + "*"]
           else Enumerated(lead, k, First(network, prefix, k), Last(network, prefix, k) + 1))
  {
    var k := prefix / 8;
    var first, last := First(network, prefix, k), Last(network, prefix, k);
    LoopSkips(network, prefix, k);
    OctetBounds(network, prefix);
    DecimalInjective(first, last);
    DecimalInjective(first, 0);
    DecimalInjective(last, 255);
    assert Decimal(0) == "0" && Decimal(255) == "255" by { Ends(); }
    OctetReads(first);
    OctetReads(last);
    hide Decimal, First, Last, ParseU16, Wildcards, BlockWildcards, Lead;
    LoopStops(Texts(network, prefix, false), Texts(network, prefix, true), k, Lead(network, 0, k), first, last);
  }

  lemma LoopStops(start: seq<string>, end: seq<string>, k: nat, each: string, first: nat, last: nat)
    requires |start| == |end| == 4 && k < 4 && start[k] != end[k]
    requires ParseU16(start[k]) == Some(first) && ParseU16(end[k]) == Some(last)
    ensures Wildcards(start, end, k, each) ==
            Ok(if start[k] == "0" && end[k] == "255" then [each + "*"] else Enumerated(each, k, first, last + 1))
  {
    hide ParseU16, Enumerated;
  }

  lemma Ends()
    ensures Decimal(0) == "0" && Decimal(255) == "255"
  {
    assert Decimal(2) == "2" && Decimal(25) == "25";
  }

  lemma OctetReads(octet: Octet)
    ensures ParseU16(Decimal(octet)) == Some(octet)
  {
    DecimalReadsBack(octet);
    assert Decimal(octet)[0] in Decimal(octet);
  }

  lemma {:induction false} EnumeratedAt(each: string, i: nat, from: nat, to: nat, m: nat)
    requires m < to - from
    ensures |Enumerated(each, i, from, to)| == to - from
    ensures Enumerated(each, i, from, to)[m] == each + Decimal(from + m) + (if i != 3 then ".*" else "")
    decreases m
  {
    EnumeratedLength(each, i, from, to);
    if m > 0 {
      EnumeratedAt(each, i, from + 1, to, m - 1);
    }
  }

  lemma {:induction false} EnumeratedLength(each: string, i: nat, from: nat, to: nat)
    requires from <= to
    ensures |Enumerated(each, i, from, to)| == to - from
    decreases if from < to then to - from else 0
  {
    if from < to {
      EnumeratedLength(each, i, from + 1, to);
    }
  }

  lemma WildcardIs(network: Address, prefix: nat)
    requires prefix < 32
    ensures BlockWildcards(network, prefix).Ok?
    ensures var k := prefix / 8; var ws := BlockWildcards(network, prefix).wildcards;
      && |ws| == (if prefix % 8 == 0 then 1 else Last(network, prefix, k) as int - First(network, prefix, k) + 1)
      && forall m :: 0 <= m < |ws| ==>
           ws[m] == if prefix % 8 == 0 then Lead(network, 0, k) + "*"
                    else Lead(network, 0, k) + Decimal(First(network, prefix, k) as int + m)
                           + (if k != 3 then ".*" else "")
  {
    hide *;
    var k := prefix / 8;
    LoopEnds(network, prefix);
    OctetBounds(network, prefix);
    if prefix % 8 != 0 {
      EnumeratedIs(Lead(network, 0, k), k, First(network, prefix, k), Last(network, prefix, k));
    }
  }

  lemma EnumeratedIs(each: string, k: nat, first: nat, last: nat)
    requires first <= last
    ensures var ws := Enumerated(each, k, first, last + 1);
      && |ws| == last - first + 1
      && forall m :: 0 <= m < |ws| ==> ws[m] == each + Decimal(first + m) + (if k != 3 then ".*" else "")
  {
    hide Decimal;
    EnumeratedLength(each, k, first, last + 1);
    var ws := Enumerated(each, k, first, last + 1);
    hide Enumerated;
    forall m | 0 <= m < |ws|
      ensures ws[m] == each + Decimal(first + m) + (if k != 3 then ".*" else "")
    {
      EnumeratedAt(each, k, first, last + 1, m);
    }
  }

  /** Wildcard `m` of a block matches exactly the addresses of the block with its value, or all for the star. */
  lemma WildcardMatches(network: Address, prefix: nat, m: nat, address: Address)
    requires prefix < 32 && BlockWildcards(network, prefix).Ok? && m < |BlockWildcards(network, prefix).wildcards|
    ensures var k := prefix / 8;
      Matches(BlockWildcards(network, prefix).wildcards[m], Dotted(address)) <==>
        Agree(network, address, 0, k) && (prefix % 8 == 0 || address[k] as int == First(network, prefix, k) as int + m)
  {
    var k := prefix / 8;
    WildcardIs(network, prefix);
    var w := BlockWildcards(network, prefix).wildcards[m];
    var first: nat := First(network, prefix, k);
    hide BlockWildcards, First, Last, Decimal, Lead, Matches, Dotted;
    if prefix % 8 == 0 {
      StarMatches(network, address, k);
    } else {
      ValueMatches(network, address, k, first + m);
    }
  }

  /** For a prefix below 32 an address matches some wildcard exactly when it lies in the block; a /32 gives none. */
  lemma BlockExactlyCovered(network: Address, prefix: nat, address: Address)
    requires prefix <= 32
    ensures BlockWildcards(network, prefix).Ok?
    ensures var ws := BlockWildcards(network, prefix).wildcards;
      && ((exists m :: 0 <= m < |ws| && Matches(ws[m], Dotted(address))) <==>
          prefix < 32 && InBlock(network, prefix, address))
      && (prefix == 32 ==> ws == [])
  {
    if prefix == 32 {
      SingleAddress(network);
    } else {
      var k := prefix / 8;
      WildcardIs(network, prefix);
      OctetBounds(network, prefix);
      BlockByOctets(network, prefix, address);
      var ws := BlockWildcards(network, prefix).wildcards;
      var first: nat, last: nat := First(network, prefix, k), Last(network, prefix, k);
      hide BlockWildcards, Matches, InBlock, First, Last, Dotted, Lead, Decimal;
      if m: nat :| m < |ws| && Matches(ws[m], Dotted(address)) {
        WildcardMatches(network, prefix, m, address);
        assert first <= address[k] <= last;
      }
      if Agree(network, address, 0, k) && first <= address[k] <= last {
        var m := if prefix % 8 == 0 then 0 else address[k] - first;
        WildcardMatches(network, prefix, m, address);
        assert Matches(ws[m], Dotted(address));
      }
    }
  }

  lemma SingleAddress(network: Address)
    ensures BlockWildcards(network, 32) == Ok([])
  {
    OctetBounds(network, 32);
    var start, end := Texts(network, 32, false), Texts(network, 32, true);
    assert forall i :: 0 <= i < 4 ==> start[i] == end[i];
    SameBounds(start, end, 0, "");
  }

  lemma {:induction false} SameBounds(start: seq<string>, end: seq<string>, i: nat, each: string)
    requires |start| == |end| == 4 && i <= 4 && forall k :: 0 <= k < 4 ==> start[k] == end[k]
    ensures Wildcards(start, end, i, each) == Ok([])
    decreases 4 - i
  {
    if i < 4 {
      SameBounds(start, end, i + 1, each + start[i] + (if i != 3 then "." else ""));
    }
  }

  /** No address matches two wildcards of a block. */
  lemma WildcardsAreDisjoint(network: Address, prefix: nat, m: nat, n: nat, address: Address)
    requires prefix <= 32 && BlockWildcards(network, prefix).Ok? && m < n < |BlockWildcards(network, prefix).wildcards|
    ensures var ws := BlockWildcards(network, prefix).wildcards;
      !(Matches(ws[m], Dotted(address)) && Matches(ws[n], Dotted(address)))
  {
    if prefix == 32 {
      SingleAddress(network);
    } else {
      WildcardIs(network, prefix);
      hide BlockWildcards, Matches, Dotted, Lead, Decimal, First, Last;
      WildcardMatches(network, prefix, m, address);
      WildcardMatches(network, prefix, n, address);
    }
  }
}
