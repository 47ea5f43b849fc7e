/**
 * Version-4 UUIDs (RFC 4122): sixteen bytes, their canonical
 * 8-4-4-4-12 lower-case hexadecimal text, and the generator that draws
 * sixteen random bytes and then stamps the version (section 4.1.3 of
 * RFC 4122) and variant (section 4.1.1 of RFC 4122) bits.
 */
module Uuid {
  import opened Integers
  import opened Opt

  /** A `[16]byte`. */
  type UUID = u: seq<Byte> | |u| == 16 witness seq(16, _ => 0)

  /** A lower-case hexadecimal digit. */
  predicate IsHexDigit(c: char) { '0' <= c <= '9' || 'a' <= c <= 'f' }

  /** The lower-case digit for `v`, as `%x` writes it. */
  function HexDigit(v: nat): (c: char)
    requires v < 16
    ensures IsHexDigit(c)
  {
    if v < 10 then ('0' as int + v) as char else ('a' as int + v - 10) as char
  }

  /** The value of a lower-case hexadecimal digit. */
  function DigitValue(c: char): (r: Option<nat>)
    ensures r.Some? ==> r.value < 16
  {
    if '0' <= c <= '9' then Some(c as int - '0' as int)
    else if 'a' <= c <= 'f' then Some(c as int - 'a' as int + 10)
    else None
  }

  lemma DigitValueOfHexDigit(v: nat)
    requires v < 16
    ensures DigitValue(HexDigit(v)) == Some(v)
  {
  }

  /** `%02x` of each byte, concatenated. */
  function Hex(bs: seq<Byte>): (s: string)
    ensures |s| == 2 * |bs|
    ensures forall i :: 0 <= i < |s| ==> IsHexDigit(s[i])
  {
    if bs == [] then [] else [HexDigit(bs[0] / 16), HexDigit(bs[0] % 16)] + Hex(bs[1..])
  }

  /** Reads pairs of hexadecimal digits back into bytes. */
  function Unhex(s: string): (r: Option<seq<Byte>>)
    ensures r.Some? ==> 2 * |r.value| == |s|
    decreases |s|
  {
    if s == [] then Some([])
    else if |s| == 1 then None
    else
      match (DigitValue(s[0]), DigitValue(s[1]), Unhex(s[2..]))
      case (Some(hi), Some(lo), Some(rest)) => Some([hi * 16 + lo] + rest)
      case _ => None
  }

  /** `String`: the five groups of 4, 2, 2, 2 and 6 bytes, joined by dashes. */
  function Format(u: UUID): (s: string)
  {
    Join5(Hex(u[0..4]), Hex(u[4..6]), Hex(u[6..8]), Hex(u[8..10]), Hex(u[10..16]))
  }

  function Join5(a: string, b: string, c: string, d: string, e: string): string
  {
    a + "-" + b + "-" + c + "-" + d + "-" + e
  }

  /** Parses the 8-4-4-4-12 form back into bytes. */
  function Parse(s: string): (r: Option<UUID>)
  {
    if |s| != 36 || s[8] != '-' || s[13] != '-' || s[18] != '-' || s[23] != '-' then None
    else
      match (Unhex(s[0..8]), Unhex(s[9..13]), Unhex(s[14..18]), Unhex(s[19..23]), Unhex(s[24..36]))
      case (Some(a), Some(b), Some(c), Some(d), Some(e)) =>
        var u: UUID := a + b + c + d + e;
        Some(u)
      case _ => None
  }

  /** The five groups sit at fixed places in the joined text. */
  lemma Join5Parts(a: string, b: string, c: string, d: string, e: string)
    requires |a| == 8 && |b| == 4 && |c| == 4 && |d| == 4 && |e| == 12
    ensures var s := Join5(a, b, c, d, e);
      |s| == 36 && s[8] == '-' && s[13] == '-' && s[18] == '-' && s[23] == '-' &&
      s[0..8] == a && s[9..13] == b && s[14..18] == c && s[19..23] == d && s[24..36] == e
  {
  }

  lemma {:induction false} UnhexHex(bs: seq<Byte>)
    ensures Unhex(Hex(bs)) == Some(bs)
  {
    if bs != [] {
      var s := Hex(bs);
      assert s[2..] == Hex(bs[1..]);
      DigitValueOfHexDigit(bs[0] / 16);
      DigitValueOfHexDigit(bs[0] % 16);
      UnhexHex(bs[1..]);
      assert [bs[0]] + bs[1..] == bs;
    }
  }

  lemma {:induction false} HexUnhex(s: string)
    requires Unhex(s).Some?
    ensures Hex(Unhex(s).value) == s
    decreases |s|
  {
    if s != [] {
      var hi, lo := DigitValue(s[0]).value, DigitValue(s[1]).value;
      var bs := Unhex(s).value;
      assert bs[0] == hi * 16 + lo && bs[1..] == Unhex(s[2..]).value;
      Digits16(hi, lo);
      HexDigitValue(s[0]);
      HexDigitValue(s[1]);
      HexUnhex(s[2..]);
      assert s == [s[0], s[1]] + s[2..];
    }
  }

  lemma HexDigitValue(c: char)
    requires DigitValue(c).Some?
    ensures HexDigit(DigitValue(c).value) == c
  {
  }

  lemma Digits16(hi: nat, lo: nat)
    requires hi < 16 && lo < 16
    ensures (hi * 16 + lo) / 16 == hi && (hi * 16 + lo) % 16 == lo
  {
  }

  /** The text has 36 characters, dashes at 8, 13, 18 and 23, and lower-case hexadecimal digits everywhere else. */
  lemma FormatShape(u: UUID)
    ensures var s := Format(u);
      |s| == 36 && s[8] == '-' && s[13] == '-' && s[18] == '-' && s[23] == '-' &&
      forall i :: 0 <= i < 36 && i != 8 && i != 13 && i != 18 && i != 23 ==> IsHexDigit(s[i])
  {
    var a, b, c, d, e := Hex(u[0..4]), Hex(u[4..6]), Hex(u[6..8]), Hex(u[8..10]), Hex(u[10..16]);
    Join5Parts(a, b, c, d, e);
    var s := Format(u);
    forall i | 0 <= i < 36 && i != 8 && i != 13 && i != 18 && i != 23
      ensures IsHexDigit(s[i])
    {
      if i < 8 { assert s[i] == s[0..8][i]; }
      else if i < 13 { assert s[i] == s[9..13][i - 9]; }
      else if i < 18 { assert s[i] == s[14..18][i - 14]; }
      else if i < 23 { assert s[i] == s[19..23][i - 19]; }
      else { assert s[i] == s[24..36][i - 24]; }
    }
  }

  /** The text names the UUID it came from. */
  lemma ParseFormat(u: UUID)
    ensures Parse(Format(u)) == Some(u)
  {
    var a, b, c, d, e := Hex(u[0..4]), Hex(u[4..6]), Hex(u[6..8]), Hex(u[8..10]), Hex(u[10..16]);
    Join5Parts(a, b, c, d, e);
    UnhexHex(u[0..4]);
    UnhexHex(u[4..6]);
    UnhexHex(u[6..8]);
    UnhexHex(u[8..10]);
    UnhexHex(u[10..16]);
    ParseOf(Format(u), u[0..4], u[4..6], u[6..8], u[8..10], u[10..16]);
    SplitGroups(u);
  }

  /** The five groups, joined again, are the bytes they were cut from. */
  lemma SplitGroups(u: seq<Byte>)
    requires |u| == 16
    ensures u[0..4] + u[4..6] + u[6..8] + u[8..10] + u[10..16] == u
  {
    assert u[0..4] + u[4..6] == u[0..6];
    assert u[0..6] + u[6..8] == u[0..8];
    assert u[0..8] + u[8..10] == u[0..10];
    assert u[0..10] + u[10..16] == u;
  }

  /** A text whose five groups read as a, b, c, d and e parses to their concatenation. */
  lemma ParseOf(s: string, a: seq<Byte>, b: seq<Byte>, c: seq<Byte>, d: seq<Byte>, e: seq<Byte>)
    requires |s| == 36 && s[8] == '-' && s[13] == '-' && s[18] == '-' && s[23] == '-'
    requires Unhex(s[0..8]) == Some(a) && Unhex(s[9..13]) == Some(b) && Unhex(s[14..18]) == Some(c) &&
      Unhex(s[19..23]) == Some(d) && Unhex(s[24..36]) == Some(e)
    ensures |a + b + c + d + e| == 16 && Parse(s).Some? && Parse(s).value == a + b + c + d + e
  {
  }

  /** Any text `Parse` accepts is the format of what it parses to. */
  lemma FormatParse(s: string)
    requires Parse(s).Some?
    ensures Format(Parse(s).value) == s
  {
    ParseGroups(s);
    HexUnhex(s[0..8]);
    HexUnhex(s[9..13]);
    HexUnhex(s[14..18]);
    HexUnhex(s[19..23]);
    HexUnhex(s[24..36]);
    JoinSlices(s);
  }

  /** What `Parse` accepts: the dashes in place and each group's bytes, in order. */
  lemma ParseGroups(s: string)
    requires Parse(s).Some?
    ensures |s| == 36 && s[8] == '-' && s[13] == '-' && s[18] == '-' && s[23] == '-'
    ensures Unhex(s[0..8]).Some? && Unhex(s[9..13]).Some? && Unhex(s[14..18]).Some? &&
      Unhex(s[19..23]).Some? && Unhex(s[24..36]).Some?
    ensures var u := Parse(s).value;
      u[0..4] == Unhex(s[0..8]).value && u[4..6] == Unhex(s[9..13]).value &&
      u[6..8] == Unhex(s[14..18]).value && u[8..10] == Unhex(s[19..23]).value &&
      u[10..16] == Unhex(s[24..36]).value
  {
    var u := Parse(s).value;
    var a, b, c, d, e := Unhex(s[0..8]).value, Unhex(s[9..13]).value, Unhex(s[14..18]).value, Unhex(s[19..23]).value, Unhex(s[24..36]).value;
    assert u == a + b + c + d + e;
  }

  /** A text of 36 characters with the four dashes in place is the join of its five groups. */
  lemma JoinSlices(s: string)
    requires |s| == 36 && s[8] == '-' && s[13] == '-' && s[18] == '-' && s[23] == '-'
    ensures Join5(s[0..8], s[9..13], s[14..18], s[19..23], s[24..36]) == s
  {
    assert s == s[0..8] + "-" + s[9..13] + "-" + s[14..18] + "-" + s[19..23] + "-" + s[24..36];
  }

  const Example: UUID := [1, 2, 3, 4, 5, 6, 7, 8, 9, 10, 11, 12, 13, 14, 15, 16]

  /** The example of the package's test. */
  lemma FormatExample()
    ensures Format(Example) == "01020304-0506-0708-090a-0b0c0d0e0f10"
  {
    assert Example[0..4] == [1, 2, 3, 4];
    HexGroup0();
    assert Example[4..6] == [5, 6];
    HexGroup1();
    assert Example[6..8] == [7, 8];
    HexGroup2();
    assert Example[8..10] == [9, 10];
    HexGroup3();
    assert Example[10..16] == [11, 12, 13, 14, 15, 16];
    HexGroup4();
    JoinExample();
  }

  lemma JoinExample()
    ensures Join5("01020304", "0506", "0708", "090a", "0b0c0d0e0f10") == "01020304-0506-0708-090a-0b0c0d0e0f10"
  {
  }

  /** Each byte shows as its high digit and then its low digit. */
  lemma {:induction false} HexAt(bs: seq<Byte>)
    ensures forall i :: 0 <= i < |bs| ==> Hex(bs)[2 * i] == HexDigit(bs[i] / 16) && Hex(bs)[2 * i + 1] == HexDigit(bs[i] % 16)
  {
    if bs != [] {
      HexAt(bs[1..]);
    }
  }

  lemma HexGroup0()
    ensures Hex([1, 2, 3, 4]) == "01020304"
  {
    HexAt([1, 2, 3, 4]);
  }

  lemma HexGroup1()
    ensures Hex([5, 6]) == "0506"
  {
    HexAt([5, 6]);
  }

  lemma HexGroup2()
    ensures Hex([7, 8]) == "0708"
  {
    HexAt([7, 8]);
  }

  lemma HexGroup3()
    ensures Hex([9, 10]) == "090a"
  {
    HexAt([9, 10]);
  }

  lemma HexGroup4()
    ensures Hex([11, 12, 13, 14, 15, 16]) == "0b0c0d0e0f10"
  {
    HexAt([11, 12, 13, 14, 15, 16]);
  }

  /** The version nibble (high four bits of byte 6). */
  function Version(u: UUID): nat { u[6] / 16 }

  /** The variant (top two bits of byte 8). */
  function Variant(u: UUID): nat { u[8] / 64 }

  /**
   * `UUID4`: each byte drawn from `draws` (the sixteen `rand.Int31n(256)`
   * results), then `u[6] = u[6]&0x0f | 0x40` and `u[8] = u[8]&0x3f | 0x80`.
   */
  method UUID4(draws: seq<Byte>) returns (u: UUID)
    requires |draws| == 16
    ensures Version(u) == 4 && Variant(u) == 2
    ensures u[6] % 16 == draws[6] % 16 && u[8] % 64 == draws[8] % 64
    ensures forall i :: 0 <= i < 16 && i != 6 && i != 8 ==> u[i] == draws[i]
  {
    var a := new Byte[16];
    for i := 0 to 16
      invariant forall j :: 0 <= j < i ==> a[j] == draws[j]
    {
      a[i] := draws[i];
    }
    a[6] := a[6] % 16 + 0x40;
    a[8] := a[8] % 64 + 0x80;
    u := a[..];
  }
}
