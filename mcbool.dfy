/** The protocol's one-byte boolean. */
module McBool {
  import opened Integers

  /** `ReadFrom`: one byte is consumed; only 0x01 reads as true. */
  function ReadFrom(s: seq<Byte>): (r: Decoded<bool>)
    ensures |s| == 0 <==> r == Failed(0, [])
    ensures r.Decoded? ==> r.n == 1 && r.rest == s[1..] && (r.value <==> s[0] == 0x01)
  {
    if |s| == 0 then Failed(0, []) else Decoded(s[0] == 0x01, 1, s[1..])
  }

  /** `WriteTo`: 0x01 for true, 0x00 for false, one byte reported. */
  function WriteTo(b: bool): (r: (seq<Byte>, int))
    ensures r.1 == |r.0| == 1
    ensures r.0[0] == (if b then 0x01 else 0x00)
  {
    ([if b then 0x01 else 0x00], 1)
  }

  lemma ReadWriteRoundTrip(b: bool, tail: seq<Byte>)
    ensures ReadFrom(WriteTo(b).0 + tail) == Decoded(b, 1, tail)
  {
    assert (WriteTo(b).0 + tail)[1..] == tail;
  }
}
