/**
 * Item stacks ("slots"): a block id, where -1 marks an empty slot and ends the
 * encoding; otherwise an amount byte, a damage value and a length-prefixed
 * enchantment payload, where length -1 means "no enchantments".
 *
 * The payload is a gzip-compressed NBT compound. Compression is outside the
 * model, so the payload is kept as the opaque compressed bytes.
 */
module Slots {
  import opened Opt
  import opened Integers
  import opened Must

  datatype Slot = Slot(blockId: Int16, amount: Byte, damage: Int16, enchantments: Option<seq<Byte>>)

  /** `NewSlot`: the defaults a freshly allocated slot starts from. */
  function NewSlot(): (s: Slot)
    ensures s.blockId == -1 && s.amount == 1 && s.damage == 0 && s.enchantments == None
  {
    Slot(-1, 1, 0, None)
  }

  /** The zero value of the Go struct, which is what a metadata entry reads into. */
  const ZeroSlot: Slot := Slot(0, 0, 0, None)

  /**
   * `Slot.ReadFrom` into the slot s, with its own ReadWriter. Block id -1 ends
   * the read after 2 bytes; length -1 ends it after 7 bytes with the
   * enchantments untouched; any other length is read as the payload. An empty
   * payload (length 0 or less, or a read error before it) cannot be
   * decompressed and is an error. The count is the number of bytes taken from
   * the stream.
   */
  function ReadFrom(s: Slot, input: seq<Byte>): (r: Step<Slot>)
    ensures |input| >= 2 && Decode(input[..2]) == -1 ==>
      r == Step(s.(blockId := -1), In(RW(2, None), input[2..]))
    ensures r.st.rw.err.None? && r.value.blockId != -1 ==>
      |input| >= 7 && r.value.amount == input[2] &&
      (r.st.rw.n == 7 ==> r.value.enchantments == s.enchantments)
    ensures Advances(In(Fresh, input), r.st)
    ensures r.st.rw.err.Some? ==> r.st.rw.err.value.IoError?
  {
    var b := ReadI16(In(Fresh, input));
    if b.value == -1 then Step(s.(blockId := -1), b.st)
    else
      var a := ReadI8(b.st);
      var d := ReadI16(a.st);
      var l := ReadI16(d.st);
      var s1 := s.(blockId := b.value, amount := ToUnsigned(a.value, 1), damage := d.value);
      if l.value == -1 then Step(s1, l.st)
      else
        var g := ReadByteArray(l.st, l.value);
        if |g.value| == 0 then Step(s1, In(CheckHook(g.st.rw, Some(IoError("gzip.NewReader"))), g.st.rest))
        else Step(s1.(enchantments := Some(g.value)), g.st)
  }

  /**
   * `Slot.ReadFrom` as written. `gzip.NewReader` fails on an empty payload and
   * returns a nil reader, which `io.Copy` then dereferences: a panic. When the
   * payload is accepted, `io.Copy` adds the `inflated` size of the
   * decompressed NBT data to the count as well.
   */
  function ReadFromAsWritten(s: Slot, input: seq<Byte>, inflated: nat): (r: Step<Slot>)
    ensures ReadFrom(s, input).st.rw.err.None? && r.value.enchantments != s.enchantments ==>
      r.st.rw.n == ReadFrom(s, input).st.rw.n + inflated
  {
    var b := ReadI16(In(Fresh, input));
    if b.value == -1 then Step(s.(blockId := -1), b.st)
    else
      var a := ReadI8(b.st);
      var d := ReadI16(a.st);
      var l := ReadI16(d.st);
      var s1 := s.(blockId := b.value, amount := ToUnsigned(a.value, 1), damage := d.value);
      if l.value == -1 then Step(s1, l.st)
      else
        var g := ReadByteArray(l.st, l.value);
        if |g.value| == 0 then Step(s1, In(Raise(g.st.rw, "nil gzip reader"), g.st.rest))
        else Step(s1.(enchantments := Some(g.value)), In(MustHook(g.st.rw, inflated, None), g.st.rest))
  }

  /** The bytes `Slot.WriteTo` puts on the wire. */
  function Bytes(s: Slot): (bs: seq<Byte>)
    ensures |bs| == if s.blockId == -1 then 2 else 5 + |EnchantmentBytes(s.enchantments)|
  {
    FitsWidths(s.blockId);
    FitsWidths(s.damage);
    if s.blockId == -1 then Encode(s.blockId, 2)
    else Encode(s.blockId, 2) + (BytesOf(s.amount, 1) + (Encode(s.damage, 2) + EnchantmentBytes(s.enchantments)))
  }

  /** The length prefix (-1 for none) and the payload. */
  function EnchantmentBytes(e: Option<seq<Byte>>): (bs: seq<Byte>)
    ensures |bs| == if e.None? then 2 else 2 + |e.value|
  {
    match e
    case None => FitsWidths(-1); Encode(-1, 2)
    case Some(blob) => FitsWidths(Wrap(|blob|, 2)); Encode(Wrap(|blob|, 2), 2) + blob
  }

  /** `Slot.WriteTo`, with its own ReadWriter, onto the destination sink. */
  function WriteTo(s: Slot, sink: Sink): (r: Out)
    ensures !sink.broken ==> r == Out(RW(|Bytes(s)|, None), Sink(sink.out + Bytes(s), false))
    ensures sink.broken ==> r == Out(RW(0, Some(IoError("WriteInt16"))), sink)
  {
    var o := WriteI16(Out(Fresh, sink), s.blockId);
    if s.blockId == -1 then o
    else
      var o1 := WriteI8(o, FromUnsigned(s.amount, 1));
      var o2 := WriteI16(o1, s.damage);
      HeaderWrites(s, sink);
      WriteEnchantments(o2, s.enchantments)
  }

  /** The block id, amount and damage of a non-empty slot: 5 bytes, then the enchantments. */
  lemma HeaderWrites(s: Slot, sink: Sink)
    requires s.blockId != -1
    ensures var o2 := WriteI16(WriteI8(WriteI16(Out(Fresh, sink), s.blockId), FromUnsigned(s.amount, 1)), s.damage);
      (sink.broken ==> o2 == Out(RW(0, Some(IoError("WriteInt16"))), sink)) &&
      (!sink.broken ==>
         o2.rw == RW(5, None) && !o2.sink.broken &&
         o2.sink.out + EnchantmentBytes(s.enchantments) == sink.out + Bytes(s))
  {
    FitsWidths(s.blockId);
    FitsWidths(s.damage);
    var h := Encode(s.blockId, 2);
    var a := BytesOf(s.amount, 1);
    var d := Encode(s.damage, 2);
    var e := EnchantmentBytes(s.enchantments);
    assert ToUnsigned(FromUnsigned(s.amount, 1), 1) == s.amount;
    assert Bytes(s) == h + (a + (d + e));
    assert sink.out + h + a + d + e == sink.out + (h + (a + (d + e)));
  }

  /** The length prefix, then the payload if there is one. */
  function WriteEnchantments(o: Out, e: Option<seq<Byte>>): (r: Out)
    ensures o.rw.err.Some? ==> r == o
    ensures o.rw.err.None? && o.sink.broken ==> r == Out(RW(o.rw.n, Some(IoError("WriteInt16"))), o.sink)
    ensures o.rw.err.None? && !o.sink.broken ==>
      r == Out(RW(o.rw.n + |EnchantmentBytes(e)|, None), Sink(o.sink.out + EnchantmentBytes(e), false))
  {
    match e
    case None => WriteI16(o, -1)
    case Some(blob) =>
      FitsWidths(Wrap(|blob|, 2));
      assert o.sink.out + Encode(Wrap(|blob|, 2), 2) + blob == o.sink.out + EnchantmentBytes(e);
      WriteBytes(WriteI16(o, Wrap(|blob|, 2)), blob, "WriteByteArray")
  }

  /** A slot the encoding can carry: a payload of 1 to 32767 bytes. */
  predicate Valid(s: Slot)
  {
    s.enchantments.Some? ==> 1 <= |s.enchantments.value| <= 0x7FFF
  }

  /** What reading back an encoded slot into `into` yields: an empty slot keeps `into`'s other fields. */
  function ReadBack(s: Slot, into: Slot): Slot
  {
    if s.blockId == -1 then into.(blockId := -1)
    else if s.enchantments.None? then s.(enchantments := into.enchantments)
    else s
  }

  /** Reading back what was written restores the slot and consumes exactly its bytes. */
  lemma ReadWriteRoundTrip(s: Slot, into: Slot, tail: seq<Byte>)
    requires Valid(s)
    ensures ReadFrom(into, Bytes(s) + tail) == Step(ReadBack(s, into), In(RW(|Bytes(s)|, None), tail))
  {
    FitsWidths(s.blockId);
    FitsWidths(s.damage);
    var input := Bytes(s) + tail;
    if s.blockId == -1 {
      ReadIntWriteInt(Fresh, s.blockId, 2, tail, "ReadInt16");
    } else {
      HeaderRoundTrip(s, tail);
      EnchantmentsRoundTrip(s.enchantments, tail);
    }
  }

  /** The block id, amount and damage of a non-empty slot read back, leaving the enchantments. */
  lemma HeaderRoundTrip(s: Slot, tail: seq<Byte>)
    requires s.blockId != -1
    ensures var b := ReadI16(In(Fresh, Bytes(s) + tail));
      var a := ReadI8(b.st);
      var d := ReadI16(a.st);
      b.value == s.blockId && ToUnsigned(a.value, 1) == s.amount &&
      d == Step(s.damage, In(RW(5, None), EnchantmentBytes(s.enchantments) + tail))
  {
    FitsWidths(s.blockId);
    FitsWidths(s.damage);
    var input := Bytes(s) + tail;
    var amount := FromUnsigned(s.amount, 1);
    var ench := EnchantmentBytes(s.enchantments) + tail;
    var rest2 := Encode(s.damage, 2) + ench;
    var rest1 := Encode(amount, 1) + rest2;
    assert input == Encode(s.blockId, 2) + rest1;
    ReadIntWriteInt(Fresh, s.blockId, 2, rest1, "ReadInt16");
    var b := ReadI16(In(Fresh, input));
    assert b == Step(s.blockId, In(RW(2, None), rest1));
    ReadIntWriteInt(RW(2, None), amount, 1, rest2, "ReadInt8");
    var a := ReadI8(b.st);
    assert a == Step(amount, In(RW(3, None), rest2));
    ReadIntWriteInt(RW(3, None), s.damage, 2, ench, "ReadInt16");
  }

  /** The enchantment part of the round trip: the length prefix and the payload. */
  lemma EnchantmentsRoundTrip(e: Option<seq<Byte>>, tail: seq<Byte>)
    requires e.Some? ==> 1 <= |e.value| <= 0x7FFF
    ensures var st := In(RW(5, None), EnchantmentBytes(e) + tail);
      var l := ReadI16(st);
      var g := ReadByteArray(l.st, l.value);
      (e.None? <==> l.value == -1) &&
      (e.None? ==> l.st == In(RW(7, None), tail)) &&
      (e.Some? ==> g == Step(e.value, In(RW(7 + |e.value|, None), tail)))
  {
    match e {
      case None =>
        FitsWidths(-1);
        ReadIntWriteInt(RW(5, None), -1, 2, tail, "ReadInt16");
      case Some(blob) =>
        var len := Wrap(|blob|, 2);
        assert len == |blob| by { FitsWidths(|blob|); }
        assert EnchantmentBytes(e) + tail == Encode(len, 2) + (blob + tail);
        ReadIntWriteInt(RW(5, None), len, 2, blob + tail, "ReadInt16");
        assert (blob + tail)[..|blob|] == blob;
        assert (blob + tail)[|blob|..] == tail;
    }
  }

  /** A stream that ends inside a slot panics, where the corrected read reports an I/O error. */
  lemma TruncatedSlotPanics()
    ensures ReadFromAsWritten(NewSlot(), [], 0).st.rw.err == Some(Panic("nil gzip reader"))
    ensures ReadFromAsWritten(NewSlot(), [0x00], 0).st.rw.err == Some(Panic("nil gzip reader"))
    ensures ReadFrom(NewSlot(), []).st.rw.err == Some(IoError("ReadInt16"))
    ensures ReadFrom(NewSlot(), [0x00]).st.rw.err == Some(IoError("ReadInt16"))
  {
  }

  /** As written, a slot carrying enchantments reports more bytes than it takes from the stream. */
  lemma AsWrittenOvercounts(s: Slot, into: Slot, tail: seq<Byte>, inflated: nat)
    requires Valid(s) && s.blockId != -1 && s.enchantments.Some? && inflated > 0
    ensures ReadFrom(into, Bytes(s) + tail).st.rw.n == |Bytes(s)|
    ensures ReadFromAsWritten(into, Bytes(s) + tail, inflated).st.rw.n == |Bytes(s)| + inflated
  {
    ReadWriteRoundTrip(s, into, tail);
    assert ReadFrom(into, Bytes(s) + tail).value.enchantments == s.enchantments;
  }

  /** A truncated slot is an I/O error in the corrected read. */
  lemma TruncatedSlotIsError(s: Slot, input: seq<Byte>)
    requires |input| < 2 || (Decode(input[..2]) != -1 && |input| < 7)
    ensures ReadFrom(s, input).st.rw.err.Some?
  {
  }

  /** `Slot.ReadFrom` on a stream: proved against `ReadFrom`. */
  method ReadSlotFrom(s: Slot, r: Reader) returns (s': Slot, n: int, err: Option<Error>)
    modifies r
    ensures Step(s', In(RW(n, err), r.rest)) == ReadFrom(s, old(r.rest))
  {
    var rw := new ReadWriter();
    var blockId := rw.ReadInt16(r);
    s' := s.(blockId := blockId);
    if blockId == -1 {
      n, err := rw.Result();
      return;
    }
    var amount := rw.ReadInt8(r);
    var damage := rw.ReadInt16(r);
    s' := s'.(amount := ToUnsigned(amount, 1), damage := damage);
    var length := rw.ReadInt16(r);
    if length == -1 {
      n, err := rw.Result();
      return;
    }
    var payload := rw.ReadBytes(r, length);
    if |payload| == 0 {
      rw.Check(Some(IoError("gzip.NewReader")));
    } else {
      s' := s'.(enchantments := Some(payload));
    }
    n, err := rw.Result();
  }

  /** `Slot.WriteTo` on a stream: proved against `WriteTo`. */
  method WriteSlotTo(s: Slot, w: Writer) returns (n: int, err: Option<Error>)
    modifies w
    ensures Out(RW(n, err), w.State()) == WriteTo(s, old(w.State()))
  {
    var rw := new ReadWriter();
    rw.WriteInt16(w, s.blockId);
    if s.blockId != -1 {
      rw.WriteInt8(w, FromUnsigned(s.amount, 1));
      rw.WriteInt16(w, s.damage);
      match s.enchantments {
        case None =>
          rw.WriteInt16(w, -1);
        case Some(blob) =>
          FitsWidths(Wrap(|blob|, 2));
          rw.WriteInt16(w, Wrap(|blob|, 2));
          rw.WriteByteArray(w, blob);
      }
    }
    n, err := rw.Result();
  }
}
