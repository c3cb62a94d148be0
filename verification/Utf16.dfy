/** UTF-16 with a byte order mark, as written for and read back from the task scheduler. */
module Utf16 {

  newtype Byte = x: int | 0 <= x < 0x100
  type Unit = x: int | 0 <= x < 0x1_0000

  predicate IsHigh(u: Unit) { 0xD800 <= u < 0xDC00 }

  predicate IsLow(u: Unit) { 0xDC00 <= u < 0xE000 }

  const REPLACEMENT := '\U{FFFD}'

  /** One unit for a character of the basic plane, a surrogate pair for any other. */
  function CharUnits(c: char): (units: seq<Unit>)
    ensures |units| == 1 ==> units == [c as int] && !IsHigh(units[0]) && !IsLow(units[0])
    ensures |units| == 2 ==> IsHigh(units[0]) && IsLow(units[1])
    ensures |units| == 1 || |units| == 2
  {
    var n := c as int;
    if n < 0x1_0000 then [n]
    else [0xD800 + (n - 0x1_0000) / 0x400, 0xDC00 + (n - 0x1_0000) % 0x400]
  }

  function Units(s: string): seq<Unit> {
    if s == [] then [] else CharUnits(s[0]) + Units(s[1..])
  }

  function Paired(high: Unit, low: Unit): char
    requires IsHigh(high) && IsLow(low)
  {
    (0x1_0000 + (high - 0xD800) * 0x400 + (low - 0xDC00)) as char
  }

  /** `String::from_utf16_lossy`: a surrogate without its partner reads as the replacement character. */
  function Text(units: seq<Unit>): string {
    if units == [] then []
    else if !IsHigh(units[0]) && !IsLow(units[0]) then [units[0] as char] + Text(units[1..])
    else if IsHigh(units[0]) && |units| > 1 && IsLow(units[1]) then [Paired(units[0], units[1])] + Text(units[2..])
    else [REPLACEMENT] + Text(units[1..])
  }

  predicate WellFormed(units: seq<Unit>) {
    if units == [] then true
    else if !IsHigh(units[0]) && !IsLow(units[0]) then WellFormed(units[1..])
    else IsHigh(units[0]) && |units| > 1 && IsLow(units[1]) && WellFormed(units[2..])
  }

  lemma {:induction false} TextReadsUnits(s: string)
    ensures Text(Units(s)) == s
  {
    if s != [] {
      var units, rest := CharUnits(s[0]), Units(s[1..]);
      TextReadsUnits(s[1..]);
      assert (units + rest)[|units|..] == rest;
      assert [s[0]] + s[1..] == s;
    }
  }

  /** Reading loses nothing exactly when every surrogate has its partner. */
  lemma {:induction false} LossyOnlyIfMalformed(units: seq<Unit>)
    ensures Units(Text(units)) == units <==> WellFormed(units)
    decreases |units|
  {
    if units != [] {
      var text := Text(units);
      if !IsHigh(units[0]) && !IsLow(units[0]) {
        LossyOnlyIfMalformed(units[1..]);
        assert text[1..] == Text(units[1..]) && units == [units[0]] + units[1..];
        assert Units(text)[1..] == Units(Text(units[1..]));
      } else if IsHigh(units[0]) && |units| > 1 && IsLow(units[1]) {
        LossyOnlyIfMalformed(units[2..]);
        assert text[1..] == Text(units[2..]) && units == [units[0], units[1]] + units[2..];
        PairedReadsBack(units[0], units[1]);
        assert Units(text)[2..] == Units(Text(units[2..]));
      } else {
        assert Units(text)[0] == REPLACEMENT as int;
      }
    }
  }

  lemma PairedReadsBack(high: Unit, low: Unit)
    requires IsHigh(high) && IsLow(low)
    ensures CharUnits(Paired(high, low)) == [high, low]
  {
  }

  // ----- bytes

  function LittleEndian(units: seq<Unit>): (bytes: seq<Byte>)
    ensures |bytes| == 2 * |units|
  {
    if units == [] then []
    else [(units[0] % 0x100) as Byte, (units[0] / 0x100) as Byte] + LittleEndian(units[1..])
  }

  /** Whole pairs of bytes, low byte first or high byte first; a last odd byte is dropped. */
  function Pairs(bytes: seq<Byte>, lowFirst: bool): seq<Unit> {
    if |bytes| < 2 then []
    else
      var unit: Unit := if lowFirst then bytes[0] as int + 0x100 * bytes[1] as int
          else 0x100 * bytes[0] as int + bytes[1] as int;
      [unit] + Pairs(bytes[2..], lowFirst)
  }

  lemma {:induction false} PairsReadBack(units: seq<Unit>)
    ensures Pairs(LittleEndian(units), true) == units
  {
    if units != [] {
      PairsReadBack(units[1..]);
      assert LittleEndian(units)[2..] == LittleEndian(units[1..]);
    }
  }

  const MARK: seq<Byte> := [0xff, 0xfe]
  const SWAPPED_MARK: seq<Byte> := [0xfe, 0xff]

  /** `decode_command_output`; reading UTF-8 is a library call. */
  function DecodeCommandOutput(bytes: seq<Byte>, utf8: seq<Byte> -> string): string {
    if MARK <= bytes then Text(Pairs(bytes[2..], true))
    else if SWAPPED_MARK <= bytes then Text(Pairs(bytes[2..], false))
    else if |bytes| >= 4 && bytes[1] == 0 && bytes[3] == 0 then Text(Pairs(bytes, true))
    else if |bytes| >= 4 && bytes[0] == 0 && bytes[2] == 0 then Text(Pairs(bytes, false))
    else utf8(bytes)
  }

  function Encoded(contents: string): seq<Byte> { MARK + LittleEndian(Units(contents)) }

  lemma {:induction false} LittleEndianAppends(units: seq<Unit>, unit: Unit)
    ensures LittleEndian(units + [unit]) == LittleEndian(units) + [(unit % 0x100) as Byte, (unit / 0x100) as Byte]
  {
    if units == [] {
      assert units + [unit] == [unit];
    } else {
      LittleEndianAppends(units[1..], unit);
      assert (units + [unit])[1..] == units[1..] + [unit];
    }
  }

  method EncodeTaskXml(contents: string, ghost utf8: seq<Byte> -> string) returns (utf16: seq<Byte>)
    ensures utf16 == Encoded(contents)
    ensures DecodeCommandOutput(utf16, utf8) == contents
  {
    utf16 := [0xff, 0xfe];
    var units := Units(contents);
    for i := 0 to |units|
      invariant utf16 == MARK + LittleEndian(units[..i])
    {
      assert units[..i + 1] == units[..i] + [units[i]];
      LittleEndianAppends(units[..i], units[i]);
      utf16 := utf16 + [(units[i] % 0x100) as Byte, (units[i] / 0x100) as Byte];
    }
    assert units[..|units|] == units;
    EncodedReadsBack(contents, utf8);
  }

  lemma EncodedReadsBack(contents: string, utf8: seq<Byte> -> string)
    ensures DecodeCommandOutput(Encoded(contents), utf8) == contents
  {
    assert Encoded(contents)[2..] == LittleEndian(Units(contents));
    PairsReadBack(Units(contents));
    TextReadsUnits(contents);
  }

  /** Without a mark, text is still recognised when its first two characters are below U+0100. */
  lemma UnmarkedReadsBack(contents: string, utf8: seq<Byte> -> string)
    requires |contents| >= 2 && contents[0] as int < 0x100 && contents[1] as int < 0x100
    ensures DecodeCommandOutput(LittleEndian(Units(contents)), utf8) == contents
  {
    var units, rest := Units(contents), Units(contents[1..]);
    assert units == [contents[0] as int] + rest && rest[0] == contents[1] as int;
    var bytes := LittleEndian(units);
    assert bytes[2..] == LittleEndian(units[1..]) && units[1..] == rest;
    assert bytes[1] == 0 && bytes[2..][1] == 0;
    PairsReadBack(units);
    TextReadsUnits(contents);
  }
}
