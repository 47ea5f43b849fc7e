/**
 * The protocol's text type: a big-endian `uint16` count of UTF-16 code units
 * followed by the units themselves, two bytes each.
 *
 * A Dafny `char` is a Unicode scalar value, so a `string` here is exactly a Go
 * string holding valid UTF-8; surrogate code points cannot occur in it.
 */
module McString {
  import opened Integers

  /** A UTF-16 code unit. */
  type Unit = u: int | 0 <= u < 0x1_0000

  const Surrogate1: int := 0xD800
  const Surrogate2: int := 0xDC00
  const Surrogate3: int := 0xE000
  const SurrogateSelf: int := 0x1_0000
  const Replacement: char := '�'

  /** The UTF-16 units of one character: one unit in the basic plane, a surrogate pair above it. */
  function EncodeRune(c: char): (units: seq<Unit>)
    ensures |units| == (if c as int < SurrogateSelf then 1 else 2)
  {
    var v := c as int;
    if v < SurrogateSelf then [v]
    else
      var w := v - SurrogateSelf;
      [Surrogate1 + w / 0x400, Surrogate2 + w % 0x400]
  }

  /** `writeString`: the UTF-16 encoding of a string. */
  function EncodeUtf16(s: string): (units: seq<Unit>)
    ensures |units| >= |s|
  {
    if |s| == 0 then [] else EncodeRune(s[0]) + EncodeUtf16(s[1..])
  }

  /** `readString`: UTF-16 decoding; an unpaired surrogate becomes U+FFFD. */
  function DecodeUtf16(units: seq<Unit>): (s: string)
    ensures |s| <= |units|
    decreases |units|
  {
    if |units| == 0 then ""
    else
      var r := units[0];
      if r < Surrogate1 || Surrogate3 <= r then
        [r as char] + DecodeUtf16(units[1..])
      else if r < Surrogate2 && 2 <= |units| && Surrogate2 <= units[1] < Surrogate3 then
        var c := ((r - Surrogate1) * 0x400 + (units[1] - Surrogate2)) + SurrogateSelf;
        [c as char] + DecodeUtf16(units[2..])
      else
        [Replacement] + DecodeUtf16(units[1..])
  }

  lemma {:induction false} DecodeEncodeUtf16(s: string)
    ensures DecodeUtf16(EncodeUtf16(s)) == s
  {
    if |s| > 0 {
      var units := EncodeUtf16(s);
      assert units == EncodeRune(s[0]) + EncodeUtf16(s[1..]);
      var head := EncodeRune(s[0]);
      DecodeEncodeUtf16(s[1..]);
      if s[0] as int < SurrogateSelf {
        assert units[1..] == EncodeUtf16(s[1..]);
      } else {
        assert units[2..] == EncodeUtf16(s[1..]);
      }
    }
  }

  /** The two-byte spelling of each unit, most significant byte first. */
  function UnitBytes(units: seq<Unit>): (bs: seq<Byte>)
    ensures |bs| == 2 * |units|
  {
    if |units| == 0 then [] else BytesOf(units[0], 2) + UnitBytes(units[1..])
  }

  /** Reads 2·count bytes back into code units. */
  function BytesUnits(bs: seq<Byte>): (units: seq<Unit>)
    requires |bs| % 2 == 0
    ensures |units| == |bs| / 2
  {
    if |bs| == 0 then [] else [ValueOf(bs[..2])] + BytesUnits(bs[2..])
  }

  lemma {:induction false} BytesUnitsOfUnitBytes(units: seq<Unit>)
    ensures BytesUnits(UnitBytes(units)) == units
  {
    if |units| > 0 {
      var head, rest := BytesOf(units[0], 2), UnitBytes(units[1..]);
      var bs := UnitBytes(units);
      assert bs == head + rest;
      assert bs[..2] == head;
      assert bs[2..] == rest;
      ValueOfBytesOf(units[0], 2);
      BytesUnitsOfUnitBytes(units[1..]);
      assert BytesUnits(bs) == [units[0]] + BytesUnits(rest);
      assert [units[0]] + units[1..] == units;
    }
  }

  /**
   * `ReadFrom`: a short length prefix is an error reporting 0 bytes; a body
   * shorter than the prefix promises is an error reporting 2 bytes; otherwise
   * 2 + 2·length bytes are consumed and reported.
   */
  function ReadFrom(s: seq<Byte>): (r: Decoded<string>)
    ensures |s| < 2 ==> r == Failed(0, [])
    ensures |s| >= 2 && |s| - 2 < 2 * ValueOf(s[..2]) ==> r == Failed(2, [])
    ensures r.Decoded? ==> r.n == 2 + 2 * ValueOf(s[..2]) && r.rest == s[r.n..]
  {
    if |s| < 2 then Failed(0, [])
    else
      var length := ValueOf(s[..2]);
      if |s| - 2 < 2 * length then Failed(2, [])
      else Decoded(DecodeUtf16(BytesUnits(s[2..2 + 2 * length])), 2 + 2 * length, s[2 + 2 * length..])
  }

  /**
   * `WriteTo` as written: the prefix is the unit count cut to `uint16`, and the
   * reported count `2 + length*2` is computed in `uint16` arithmetic too.
   */
  function WriteTo(str: string): (r: (seq<Byte>, int))
    ensures var units := EncodeUtf16(str);
      r.0 == BytesOf(WrapUnsigned(|units|, 2), 2) + UnitBytes(units)
    ensures 0 <= r.1 < 0x1_0000
  {
    var units := EncodeUtf16(str);
    var length := WrapUnsigned(|units|, 2);
    (BytesOf(length, 2) + UnitBytes(units), WrapUnsigned(2 + length * 2, 2))
  }

  /** The reported count stops matching the bytes written once the string has 32767 units. */
  lemma WriteToCountWraps(str: string)
    requires 32767 <= |EncodeUtf16(str)| < 0xFFFF
    ensures WriteTo(str).1 != |WriteTo(str).0|
    ensures WriteTo(str).1 == 2 * |EncodeUtf16(str)| + 2 - 0x1_0000
  {
    var length := |EncodeUtf16(str)|;
    assert Pow256(2) == 0x1_0000;
    assert 0x1_0000 <= 2 + length * 2 < 2 * 0x1_0000;
    ModUnique(2 + length * 2, 0x1_0000, 1, 2 + length * 2 - 0x1_0000);
  }

  /** `WriteTo` with the count computed in `int64`: the bytes are the same, and the count is their number. */
  function WriteToCounted(str: string): (r: (seq<Byte>, int))
    ensures r.0 == WriteTo(str).0
    ensures r.1 == |r.0| == 2 + 2 * |EncodeUtf16(str)|
  {
    var bs := WriteTo(str).0;
    (bs, |bs|)
  }

  /** Below 32767 units the two counts agree. */
  lemma WriteToCountAgrees(str: string)
    requires |EncodeUtf16(str)| < 32767
    ensures WriteTo(str).1 == WriteToCounted(str).1
  {
    assert Pow256(2) == 0x1_0000;
  }

  /** Any string of at most 65535 units reads back unchanged, leaving the rest of the stream. */
  lemma ReadWriteRoundTrip(str: string, tail: seq<Byte>)
    requires |EncodeUtf16(str)| <= 0xFFFF
    ensures ReadFrom(WriteToCounted(str).0 + tail) == Decoded(str, WriteToCounted(str).1, tail)
  {
    var units := EncodeUtf16(str);
    assert Pow256(2) == 0x1_0000;
    var prefix := BytesOf(|units|, 2);
    var body := UnitBytes(units);
    var s := prefix + body + tail;
    assert WriteToCounted(str).0 == prefix + body;
    assert s[..2] == prefix;
    ValueOfBytesOf(|units|, 2);
    assert s[2..2 + 2 * |units|] == body;
    assert s[2 + 2 * |units|..] == tail;
    BytesUnitsOfUnitBytes(units);
    DecodeEncodeUtf16(str);
  }
}
