/**
 * The field types a packet is made of, and the reading and writing of a
 * sequence of fields through one `MustReadWriter`. Every packet whose
 * `ReadFrom` and `WriteTo` are a fixed sequence of `Read*`/`Write*` calls is
 * described by the list of its field kinds (its layout); this module reads and
 * writes any layout, and proves once that what is written reads back.
 */
module Fields {
  import opened Opt
  import opened Integers
  import opened Must
  import opened PacketRW
  import McString
  import Slots
  import ObjectDatas
  import Metadata

  /** The byte widths of `int8` … `int64`, of `float32`/`float64`, and of a length prefix. */
  type IntWidth = k: nat | k == 1 || k == 2 || k == 4 || k == 8 witness 1
  type FloatWidth = k: nat | k == 4 || k == 8 witness 4
  type PrefixWidth = k: nat | k == 2 || k == 4 witness 2

  /**
   * A field as it travels: a big-endian integer, a raw float bit pattern, the
   * composites of `MustReadWriter`, a byte array preceded by its length as
   * an `int16` or an `int32`, and a bare byte array whose length was sent
   * elsewhere (`KRaw(n)` reads n bytes).
   */
  datatype Kind =
    | KInt(iw: IntWidth)
    | KFloat(fw: FloatWidth)
    | KString
    | KBool
    | KSlot
    | KObjectData
    | KMetadata
    | KBytes(pw: PrefixWidth)
    | KRaw(len: nat)

  /** A field's value. A nil `*Slot` or `*ObjectData` is `None`. */
  datatype Value =
    | VInt(iw: IntWidth, i: int)
    | VFloat(fw: FloatWidth, bits: nat)
    | VString(str: string)
    | VBool(b: bool)
    | VSlot(slot: Option<Slots.Slot>)
    | VObjectData(obj: Option<ObjectDatas.ObjectData>)
    | VMetadata(meta: map<Byte, Metadata.Entry>)
    | VBytes(pw: PrefixWidth, bytes: seq<Byte>)
    | VRaw(len: nat, raw: seq<Byte>)

  function KindOf(v: Value): Kind
  {
    match v
    case VInt(k, _) => KInt(k)
    case VFloat(k, _) => KFloat(k)
    case VString(_) => KString
    case VBool(_) => KBool
    case VSlot(_) => KSlot
    case VObjectData(_) => KObjectData
    case VMetadata(_) => KMetadata
    case VBytes(k, _) => KBytes(k)
    case VRaw(n, _) => KRaw(n)
  }

  /** The layout a list of values has. */
  function KindsOf(vs: seq<Value>): (layout: seq<Kind>)
    ensures |layout| == |vs|
    ensures forall i :: 0 <= i < |vs| ==> layout[i] == KindOf(vs[i])
  {
    if vs == [] then [] else [KindOf(vs[0])] + KindsOf(vs[1..])
  }

  lemma KindsOfCons(vs: seq<Value>)
    requires vs != []
    ensures KindsOf(vs)[0] == KindOf(vs[0]) && KindsOf(vs)[1..] == KindsOf(vs[1..])
  {
    assert KindsOf(vs) == [KindOf(vs[0])] + KindsOf(vs[1..]);
  }

  /** The names the `Read*`/`Write*` calls report errors under. */
  function ReadIntName(k: IntWidth): string
  {
    if k == 1 then "ReadInt8" else if k == 2 then "ReadInt16" else if k == 4 then "ReadInt32" else "ReadInt64"
  }

  function WriteIntName(k: IntWidth): string
  {
    if k == 1 then "WriteInt8" else if k == 2 then "WriteInt16" else if k == 4 then "WriteInt32" else "WriteInt64"
  }

  function ReadFloatName(k: FloatWidth): string
  {
    if k == 4 then "ReadFloat32" else "ReadFloat64"
  }

  function WriteFloatName(k: FloatWidth): string
  {
    if k == 4 then "WriteFloat32" else "WriteFloat64"
  }

  // ---------------------------------------------------------------------------
  // Reading.

  /** A length-prefixed byte array: a k-byte length, then `ReadByteArray` of that length. */
  function ReadPrefixed(st: In, k: PrefixWidth): (r: Step<seq<Byte>>)
    ensures st.rw.err.Some? ==> r == Step([], st)
    ensures Advances(st, r.st)
  {
    var l := ReadInt(st, k, ReadIntName(k));
    ReadByteArray(l.st, l.value)
  }

  /** The composites: the `MustReadWriter` call of the kind's name. */
  function ReadComposite(k: Kind, st: In): (r: Step<Value>)
    requires k.KString? || k.KBool? || k.KSlot? || k.KObjectData? || k.KMetadata?
    ensures KindOf(r.value) == k
    ensures st.rw.err.Some? ==> r.st == st
    ensures Advances(st, r.st)
  {
    match k
    case KString => var t := ReadStr(st); Step(VString(t.value), t.st)
    case KBool => var t := ReadBoolean(st); Step(VBool(t.value), t.st)
    case KSlot => var t := ReadSlotField(st); Step(VSlot(t.value), t.st)
    case KObjectData => var t := ReadObjectDataField(st); Step(VObjectData(t.value), t.st)
    case KMetadata => var t := ReadMetadataField(st); Step(VMetadata(t.value), t.st)
  }

  /** One field: the `Read*` call its kind names. */
  function ReadField(k: Kind, st: In): (r: Step<Value>)
    ensures KindOf(r.value) == k
    ensures st.rw.err.Some? ==> r.st == st
    ensures Advances(st, r.st)
  {
    match k
    case KInt(_) => ReadNumber(k, st)
    case KFloat(_) => ReadNumber(k, st)
    case KBytes(w) => var t := ReadPrefixed(st, w); Step(VBytes(w, t.value), t.st)
    case KRaw(n) => var t := ReadByteArray(st, n); Step(VRaw(n, t.value), t.st)
    case _ => ReadComposite(k, st)
  }

  /** The fixed-width numbers: `ReadInt*` and `ReadFloat*`. */
  function ReadNumber(k: Kind, st: In): (r: Step<Value>)
    requires k.KInt? || k.KFloat?
    ensures KindOf(r.value) == k
    ensures st.rw.err.Some? ==> r.st == st
    ensures Advances(st, r.st)
  {
    match k
    case KInt(w) => var t := ReadInt(st, w, ReadIntName(w)); Step(VInt(w, t.value), t.st)
    case KFloat(w) => var t := ReadBits(st, w, ReadFloatName(w)); Step(VFloat(w, t.value), t.st)
  }

  /** The fields of a layout, one after the other, the error sticking once it occurs. */
  function ReadFields(layout: seq<Kind>, st: In): (r: Step<seq<Value>>)
    ensures KindsOf(r.value) == layout
    ensures Advances(st, r.st)
    decreases |layout|
  {
    if layout == [] then Step([], st)
    else
      var f := ReadField(layout[0], st);
      var more := ReadFields(layout[1..], f.st);
      Step([f.value] + more.value, more.st)
  }

  // ---------------------------------------------------------------------------
  // Writing.

  /** A value whose `Write*` call does not dereference a nil reference. */
  predicate Writable(v: Value)
  {
    !(v.VSlot? && v.slot.None?) && !(v.VObjectData? && v.obj.None?)
  }

  /**
   * The bytes a writable field puts on the wire: an integer converted to its
   * width, a float's low bytes, a map enumerated in `order`, an array's
   * length converted to the prefix's width.
   */
  function FieldBytes(v: Value, order: seq<Byte>): (bs: seq<Byte>)
    ensures v.VInt? ==> |bs| == v.iw
    ensures v.VFloat? ==> |bs| == v.fw
  {
    match v
    case VInt(k, x) => Encode(Wrap(x, k), k)
    case VFloat(k, f) => BytesOf(f % Pow256(k), k)
    case VString(s) => StrBytes(s)
    case VBool(b) => [if b then 0x01 else 0x00]
    case VSlot(s) => if s.Some? then Slots.Bytes(s.value) else []
    case VObjectData(d) => if d.Some? then ObjectDatas.Bytes(d.value) else []
    case VMetadata(m) => Metadata.Bytes(m, order)
    case VBytes(k, bs) => Encode(Wrap(|bs|, k), k) + bs
    case VRaw(_, bs) => bs
  }

  /** The operation a failed destination is reported under: the field's first `Write*` call. */
  function FirstOp(v: Value): string
  {
    match v
    case VInt(k, _) => WriteIntName(k)
    case VFloat(k, _) => WriteFloatName(k)
    case VString(_) => "WriteString"
    case VBool(_) => "WriteBool"
    case VSlot(_) => "WriteSlot"
    case VObjectData(_) => "WriteObjectData"
    case VMetadata(_) => "WriteMetadata"
    case VBytes(k, _) => WriteIntName(k)
    case VRaw(_, _) => "WriteByteArray"
  }

  /** Two writes in a row act as one write of both, reported under the first one's name. */
  lemma WriteBytesChain(o: Out, a: seq<Byte>, b: seq<Byte>, op: string, op': string)
    ensures WriteBytes(WriteBytes(o, a, op), b, op') == WriteBytes(o, a + b, op)
  {
    assert o.sink.out + a + b == o.sink.out + (a + b);
  }

  /** The reason a nil reference field panics with. */
  function NilReason(v: Value): string
  {
    if v.VSlot? then "nil slot" else "nil object data"
  }

  /**
   * One field as the `Write*` call for its kind does it (`WriteFieldTo` is
   * proved to make exactly those calls): a nil reference panics, anything else is
   * one write of the field's bytes.
   */
  function WriteField(o: Out, v: Value, order: seq<Byte>): (r: Out)
    ensures o.rw.err.Some? ==> r == o
    ensures o.rw.err.None? && !Writable(v) ==> r == Out(RW(o.rw.n, Some(Panic(NilReason(v)))), o.sink)
    ensures o.rw.err.None? && Writable(v) && o.sink.broken ==> r == Out(RW(o.rw.n, Some(IoError(FirstOp(v)))), o.sink)
    ensures o.rw.err.None? && Writable(v) && !o.sink.broken ==>
      r == Out(RW(o.rw.n + |FieldBytes(v, order)|, None), Sink(o.sink.out + FieldBytes(v, order), false))
  {
    if Writable(v) then WriteBytes(o, FieldBytes(v, order), FirstOp(v))
    else if o.rw.err.Some? then o
    else Out(Raise(o.rw, NilReason(v)), o.sink)
  }

  /** The fields one after the other; field i's metadata map, if any, is enumerated in orders[i]. */
  function WriteFields(o: Out, vs: seq<Value>, orders: seq<seq<Byte>>): (r: Out)
    requires |orders| == |vs|
    decreases |vs|
  {
    if vs == [] then o else WriteFields(WriteField(o, vs[0], orders[0]), vs[1..], orders[1..])
  }

  /** The bytes of the fields, one after the other. */
  function FieldsBytes(vs: seq<Value>, orders: seq<seq<Byte>>): seq<Byte>
    requires |orders| == |vs|
    decreases |vs|
  {
    if vs == [] then [] else FieldBytes(vs[0], orders[0]) + FieldsBytes(vs[1..], orders[1..])
  }

  predicate AllWritable(vs: seq<Value>)
  {
    forall i :: 0 <= i < |vs| ==> Writable(vs[i])
  }

  lemma AllWritableTail(vs: seq<Value>)
    requires vs != [] && AllWritable(vs)
    ensures Writable(vs[0]) && AllWritable(vs[1..])
  {
    assert Writable(vs[0]);
    forall i | 0 <= i < |vs[1..]| ensures Writable(vs[1..][i]) {
      assert vs[1..][i] == vs[i + 1];
    }
  }

  /** On a healthy destination, writing writable fields appends their bytes and counts them. */
  lemma {:induction false} WriteFieldsHealthy(o: Out, vs: seq<Value>, orders: seq<seq<Byte>>)
    requires |orders| == |vs|
    requires o.rw.err.None? && !o.sink.broken
    requires AllWritable(vs)
    ensures WriteFields(o, vs, orders) ==
      Out(RW(o.rw.n + |FieldsBytes(vs, orders)|, None), Sink(o.sink.out + FieldsBytes(vs, orders), false))
    decreases |vs|
  {
    if vs != [] {
      var head := FieldBytes(vs[0], orders[0]);
      var more := FieldsBytes(vs[1..], orders[1..]);
      AllWritableTail(vs);
      var o' := WriteField(o, vs[0], orders[0]);
      assert o' == Out(RW(o.rw.n + |head|, None), Sink(o.sink.out + head, false));
      WriteFieldsHealthy(o', vs[1..], orders[1..]);
      assert WriteFields(o, vs, orders) == WriteFields(o', vs[1..], orders[1..]);
      FieldsBytesSplit(vs, orders);
      Associative(o.sink.out, head, more);
    }
  }

  /** After an error nothing more is written or counted. */
  lemma {:induction false} WriteFieldsAfterError(o: Out, vs: seq<Value>, orders: seq<seq<Byte>>)
    requires |orders| == |vs|
    requires o.rw.err.Some?
    ensures WriteFields(o, vs, orders) == o
    decreases |vs|
  {
    if vs != [] {
      WriteFieldsAfterError(o, vs[1..], orders[1..]);
    }
  }

  /** On a failed destination nothing is written or counted, and an error is recorded. */
  lemma {:induction false} WriteFieldsBroken(o: Out, vs: seq<Value>, orders: seq<seq<Byte>>)
    requires |orders| == |vs|
    requires o.sink.broken
    ensures var r := WriteFields(o, vs, orders);
      r.sink == o.sink && r.rw.n == o.rw.n && (r.rw.err.Some? || (o.rw.err.None? && vs == []))
    decreases |vs|
  {
    if vs != [] {
      WriteFieldsBroken(WriteField(o, vs[0], orders[0]), vs[1..], orders[1..]);
    }
  }

  // ---------------------------------------------------------------------------
  // Round trips.

  /**
   * A field the matching read gives back: an integer that fits its width, a
   * bit pattern that fits its float, a string of at most 65535 units, a
   * readable slot and map, an array whose length the prefix can carry.
   */
  predicate FieldValid(v: Value, order: seq<Byte>)
  {
    match v
    case VInt(k, x) => Fits(x, k)
    case VFloat(k, f) => f < Pow256(k)
    case VString(s) => |McString.EncodeUtf16(s)| <= 0xFFFF
    case VBool(_) => true
    case VSlot(s) => s.Some? && Slots.Valid(s.value)
    case VObjectData(d) => d.Some?
    case VMetadata(m) => Metadata.Valid(m) && Metadata.IsEnumeration(order, m)
    case VBytes(k, bs) => Fits(|bs|, k)
    case VRaw(n, bs) => |bs| == n
  }

  /** What reading a written slot gives: an empty slot (block id -1) reads as `NewSlot`. */
  function ReadBackSlot(s: Option<Slots.Slot>): Option<Slots.Slot>
  {
    if s.Some? && s.value.blockId == -1 then Some(Slots.NewSlot()) else s
  }

  /** What reading written object data gives: zero data carries no speeds. */
  function ReadBackObjectData(d: Option<ObjectDatas.ObjectData>): Option<ObjectDatas.ObjectData>
  {
    if d.Some? && d.value.data == 0 then Some(ZeroObjectData) else d
  }

  /** What reading a written field gives back. */
  function ReadBack(v: Value): Value
  {
    match v
    case VSlot(s) => VSlot(ReadBackSlot(s))
    case VObjectData(d) => VObjectData(ReadBackObjectData(d))
    case _ => v
  }

  function ReadBacks(vs: seq<Value>): (rs: seq<Value>)
    ensures |rs| == |vs|
    ensures forall i :: 0 <= i < |vs| ==> rs[i] == ReadBack(vs[i])
  {
    if vs == [] then [] else [ReadBack(vs[0])] + ReadBacks(vs[1..])
  }

  lemma IntRoundTrip(c: int, v: int, k: nat, tail: seq<Byte>, op: string)
    requires k >= 1 && Fits(v, k)
    ensures ReadInt(In(RW(c, None), Encode(v, k) + tail), k, op) == Step(v, In(RW(c + k, None), tail))
  {
    ReadIntWriteInt(RW(c, None), v, k, tail, op);
  }

  lemma BitsRoundTrip(c: int, f: nat, k: nat, tail: seq<Byte>, op: string)
    requires f < Pow256(k)
    ensures ReadBits(In(RW(c, None), BytesOf(f, k) + tail), k, op) == Step(f, In(RW(c + k, None), tail))
  {
    var input := BytesOf(f, k) + tail;
    assert input[..k] == BytesOf(f, k);
    assert input[k..] == tail;
    ValueOfBytesOf(f, k);
  }

  /** A length-prefixed array reads back when its length fits the prefix. */
  lemma PrefixedRoundTrip(c: int, bs: seq<Byte>, k: PrefixWidth, tail: seq<Byte>)
    requires Fits(|bs|, k)
    ensures ReadPrefixed(In(RW(c, None), Encode(Wrap(|bs|, k), k) + bs + tail), k) ==
      Step(bs, In(RW(c + k + |bs|, None), tail))
  {
    assert Encode(Wrap(|bs|, k), k) + bs + tail == Encode(|bs|, k) + (bs + tail);
    IntRoundTrip(c, |bs|, k, bs + tail, ReadIntName(k));
    assert (bs + tail)[..|bs|] == bs;
    assert (bs + tail)[|bs|..] == tail;
  }

  /** Reading a field's kind from its bytes gives `ReadBack` of it and consumes exactly its bytes. */
  predicate RoundTrips(c: int, v: Value, order: seq<Byte>, tail: seq<Byte>)
  {
    ReadField(KindOf(v), In(RW(c, None), FieldBytes(v, order) + tail)) ==
      Step(ReadBack(v), In(RW(c + |FieldBytes(v, order)|, None), tail))
  }

  lemma IntFieldRoundTrip(c: int, k: IntWidth, x: int, order: seq<Byte>, tail: seq<Byte>)
    requires Fits(x, k)
    ensures RoundTrips(c, VInt(k, x), order, tail)
  {
    assert FieldBytes(VInt(k, x), order) == Encode(x, k);
    IntRoundTrip(c, x, k, tail, ReadIntName(k));
  }

  lemma FloatFieldRoundTrip(c: int, k: FloatWidth, f: nat, order: seq<Byte>, tail: seq<Byte>)
    requires f < Pow256(k)
    ensures RoundTrips(c, VFloat(k, f), order, tail)
  {
    var m := Pow256(k);
    assert f % m == f by { SmallMod(f, m); }
    var bs := FieldBytes(VFloat(k, f), order);
    assert bs == BytesOf(f, k);
    BitsRoundTrip(c, f, k, tail, ReadFloatName(k));
    var t := ReadBits(In(RW(c, None), bs + tail), k, ReadFloatName(k));
    assert ReadField(KFloat(k), In(RW(c, None), bs + tail)) == Step(VFloat(k, t.value), t.st);
  }

  lemma SmallMod(f: nat, m: nat)
    requires f < m
    ensures f % m == f
  {
  }

  lemma BytesFieldRoundTrip(c: int, k: PrefixWidth, bs: seq<Byte>, order: seq<Byte>, tail: seq<Byte>)
    requires Fits(|bs|, k)
    ensures RoundTrips(c, VBytes(k, bs), order, tail)
  {
    var prefix := Encode(Wrap(|bs|, k), k);
    assert FieldBytes(VBytes(k, bs), order) + tail == prefix + bs + tail;
    PrefixedRoundTrip(c, bs, k, tail);
  }

  lemma StringFieldRoundTrip(c: int, s: string, order: seq<Byte>, tail: seq<Byte>)
    requires |McString.EncodeUtf16(s)| <= 0xFFFF
    ensures RoundTrips(c, VString(s), order, tail)
  {
    var st := In(RW(c, None), StrBytes(s) + tail);
    assert FieldBytes(VString(s), order) == StrBytes(s);
    StringRoundTrip(c, s, tail);
    assert ReadField(KString, st) == ReadComposite(KString, st);
  }

  lemma BoolFieldRoundTrip(c: int, b: bool, order: seq<Byte>, tail: seq<Byte>)
    ensures RoundTrips(c, VBool(b), order, tail)
  {
    var st := In(RW(c, None), [if b then 0x01 else 0x00] + tail);
    assert FieldBytes(VBool(b), order) == [if b then 0x01 else 0x00];
    BoolRoundTrip(c, b, tail);
    assert ReadField(KBool, st) == ReadComposite(KBool, st);
  }

  lemma SlotFieldRoundTrip(c: int, s: Slots.Slot, order: seq<Byte>, tail: seq<Byte>)
    requires Slots.Valid(s)
    ensures RoundTrips(c, VSlot(Some(s)), order, tail)
  {
    var st := In(RW(c, None), Slots.Bytes(s) + tail);
    assert FieldBytes(VSlot(Some(s)), order) == Slots.Bytes(s);
    SlotRoundTrip(c, s, tail);
    assert ReadField(KSlot, st) == ReadComposite(KSlot, st);
  }

  lemma ObjectDataFieldRoundTrip(c: int, d: ObjectDatas.ObjectData, order: seq<Byte>, tail: seq<Byte>)
    ensures RoundTrips(c, VObjectData(Some(d)), order, tail)
  {
    var st := In(RW(c, None), ObjectDatas.Bytes(d) + tail);
    assert FieldBytes(VObjectData(Some(d)), order) == ObjectDatas.Bytes(d);
    ObjectDataRoundTrip(c, d, tail);
    assert ReadField(KObjectData, st) == ReadComposite(KObjectData, st);
  }

  lemma MetadataFieldRoundTrip(c: int, m: map<Byte, Metadata.Entry>, order: seq<Byte>, tail: seq<Byte>)
    requires Metadata.Valid(m) && Metadata.IsEnumeration(order, m)
    ensures RoundTrips(c, VMetadata(m), order, tail)
  {
    MetadataRoundTrip(c, m, order, tail);
    MetadataFieldOf(c, m, order, tail);
  }

  /** A metadata field round-trips when the map it carries does. */
  lemma MetadataFieldOf(c: int, m: map<Byte, Metadata.Entry>, order: seq<Byte>, tail: seq<Byte>)
    requires ReadMetadataField(In(RW(c, None), Metadata.Bytes(m, order) + tail)) ==
      Step(m, In(RW(c + |Metadata.Bytes(m, order)|, None), tail))
    ensures RoundTrips(c, VMetadata(m), order, tail)
  {
    assert FieldBytes(VMetadata(m), order) == Metadata.Bytes(m, order);
    ReadFieldMetadata(In(RW(c, None), Metadata.Bytes(m, order) + tail));
  }

  /** A metadata field is read by `ReadMetadata`. */
  lemma ReadFieldMetadata(st: In)
    ensures var t := ReadMetadataField(st); ReadField(KMetadata, st) == Step(VMetadata(t.value), t.st)
  {
    var t := ReadMetadataField(st);
    assert ReadComposite(KMetadata, st) == Step(VMetadata(t.value), t.st);
  }

  lemma RawFieldRoundTrip(c: int, bs: seq<Byte>, order: seq<Byte>, tail: seq<Byte>)
    ensures RoundTrips(c, VRaw(|bs|, bs), order, tail)
  {
    assert (bs + tail)[..|bs|] == bs;
    assert (bs + tail)[|bs|..] == tail;
  }

  /** Every valid field reads back as `ReadBack` of itself, consuming exactly its bytes. */
  lemma FieldRoundTrip(c: int, v: Value, order: seq<Byte>, tail: seq<Byte>)
    requires FieldValid(v, order)
    ensures ReadField(KindOf(v), In(RW(c, None), FieldBytes(v, order) + tail)) ==
      Step(ReadBack(v), In(RW(c + |FieldBytes(v, order)|, None), tail))
  {
    match v
    case VInt(k, x) => IntFieldRoundTrip(c, k, x, order, tail);
    case VFloat(k, f) => FloatFieldRoundTrip(c, k, f, order, tail);
    case VBytes(k, bs) => BytesFieldRoundTrip(c, k, bs, order, tail);
    case VString(s) => StringFieldRoundTrip(c, s, order, tail);
    case VBool(b) => BoolFieldRoundTrip(c, b, order, tail);
    case VSlot(s) => SlotFieldRoundTrip(c, s.value, order, tail);
    case VObjectData(d) => ObjectDataFieldRoundTrip(c, d.value, order, tail);
    case VMetadata(m) => MetadataFieldRoundTrip(c, m, order, tail);
    case VRaw(n, bs) => RawFieldRoundTrip(c, bs, order, tail);
  }

  predicate AllValid(vs: seq<Value>, orders: seq<seq<Byte>>)
    requires |orders| == |vs|
  {
    forall i :: 0 <= i < |vs| ==> FieldValid(vs[i], orders[i])
  }

  lemma AllValidTail(vs: seq<Value>, orders: seq<seq<Byte>>)
    requires |orders| == |vs| && vs != [] && AllValid(vs, orders)
    ensures FieldValid(vs[0], orders[0]) && AllValid(vs[1..], orders[1..])
  {
    assert FieldValid(vs[0], orders[0]);
    forall i | 0 <= i < |vs[1..]| ensures FieldValid(vs[1..][i], orders[1..][i]) {
      assert vs[1..][i] == vs[i + 1] && orders[1..][i] == orders[i + 1];
    }
  }

  lemma FieldsBytesSplit(vs: seq<Value>, orders: seq<seq<Byte>>)
    requires |orders| == |vs| && vs != []
    ensures FieldsBytes(vs, orders) == FieldBytes(vs[0], orders[0]) + FieldsBytes(vs[1..], orders[1..])
  {
  }

  /** The first field's bytes, then the rest's, then whatever follows. */
  lemma FieldsBytesCons(vs: seq<Value>, orders: seq<seq<Byte>>, tail: seq<Byte>)
    requires |orders| == |vs| && vs != []
    ensures FieldsBytes(vs, orders) + tail ==
      FieldBytes(vs[0], orders[0]) + (FieldsBytes(vs[1..], orders[1..]) + tail)
    ensures |FieldsBytes(vs, orders)| == |FieldBytes(vs[0], orders[0])| + |FieldsBytes(vs[1..], orders[1..])|
  {
    var head := FieldBytes(vs[0], orders[0]);
    var more := FieldsBytes(vs[1..], orders[1..]);
    FieldsBytesSplit(vs, orders);
    Associative(head, more, tail);
  }

  /** The bytes of two runs of fields are the bytes of each, one after the other. */
  lemma {:induction false} FieldsBytesAppend(a: seq<Value>, b: seq<Value>, oa: seq<seq<Byte>>, ob: seq<seq<Byte>>)
    requires |oa| == |a| && |ob| == |b|
    ensures FieldsBytes(a + b, oa + ob) == FieldsBytes(a, oa) + FieldsBytes(b, ob)
    decreases |a|
  {
    if a == [] {
      assert a + b == b && oa + ob == ob;
    } else {
      var head := FieldBytes(a[0], oa[0]);
      var rest := FieldsBytes(a[1..], oa[1..]);
      var more := FieldsBytes(b, ob);
      assert (a + b)[0] == a[0] && (oa + ob)[0] == oa[0];
      assert (a + b)[1..] == a[1..] + b;
      assert (oa + ob)[1..] == oa[1..] + ob;
      calc {
        FieldsBytes(a + b, oa + ob);
        { FieldsBytesSplit(a + b, oa + ob); }
        head + FieldsBytes(a[1..] + b, oa[1..] + ob);
        { FieldsBytesAppend(a[1..], b, oa[1..], ob); }
        head + (rest + more);
        { Associative(head, rest, more); }
        (head + rest) + more;
        { FieldsBytesSplit(a, oa); }
        FieldsBytes(a, oa) + more;
      }
    }
  }

  /** Valid fields have no nil reference among them. */
  lemma AllValidWritable(vs: seq<Value>, orders: seq<seq<Byte>>)
    requires |orders| == |vs| && AllValid(vs, orders)
    ensures AllWritable(vs)
  {
    forall i | 0 <= i < |vs| ensures Writable(vs[i]) {
      assert FieldValid(vs[i], orders[i]);
    }
  }

  /** Both parts of valid fields are valid. */
  lemma AllValidSplit(vs: seq<Value>, orders: seq<seq<Byte>>, k: nat)
    requires |orders| == |vs| && k <= |vs| && AllValid(vs, orders)
    ensures AllValid(vs[..k], orders[..k]) && AllValid(vs[k..], orders[k..])
  {
    forall i | 0 <= i < |vs[k..]| ensures FieldValid(vs[k..][i], orders[k..][i]) {
      assert vs[k..][i] == vs[k + i] && orders[k..][i] == orders[k + i];
    }
  }

  lemma Associative<T>(a: seq<T>, b: seq<T>, c: seq<T>)
    ensures (a + b) + c == a + (b + c) && |a + b| == |a| + |b|
  {
  }

  /** One field read, then the rest of the layout. */
  lemma ReadFieldsCons(layout: seq<Kind>, st: In)
    requires layout != []
    ensures ReadFields(layout, st) ==
      var f := ReadField(layout[0], st);
      var more := ReadFields(layout[1..], f.st);
      Step([f.value] + more.value, more.st)
  {
  }

  /**
   * Reading the fields' layout back from their bytes gives `ReadBacks` of the
   * fields, leaves exactly what followed them, and records no error.
   */
  lemma {:induction false} FieldsReadBack(c: int, vs: seq<Value>, orders: seq<seq<Byte>>, tail: seq<Byte>)
    requires |orders| == |vs|
    requires AllValid(vs, orders)
    ensures var r := ReadFields(KindsOf(vs), In(RW(c, None), FieldsBytes(vs, orders) + tail));
      r.value == ReadBacks(vs) && r.st.rest == tail && r.st.rw.err == None
    decreases |vs|
  {
    if vs == [] {
      assert [] + tail == tail;
    } else {
      AllValidTail(vs, orders);
      FieldsBytesCons(vs, orders, tail);
      KindsOfCons(vs);
      var layout := KindsOf(vs);
      var st := In(RW(c, None), FieldsBytes(vs, orders) + tail);
      FieldRoundTrip(c, vs[0], orders[0], FieldsBytes(vs[1..], orders[1..]) + tail);
      var f := ReadField(layout[0], st);
      FieldsReadBack(f.st.rw.n, vs[1..], orders[1..], tail);
      assert In(RW(f.st.rw.n, None), FieldsBytes(vs[1..], orders[1..]) + tail) == f.st;
      ReadFieldsCons(layout, st);
      assert ReadBacks(vs) == [ReadBack(vs[0])] + ReadBacks(vs[1..]);
    }
  }

  /** The same, with the count: exactly the fields' bytes are added to it. */
  lemma FieldsRoundTrip(c: int, vs: seq<Value>, orders: seq<seq<Byte>>, tail: seq<Byte>)
    requires |orders| == |vs|
    requires AllValid(vs, orders)
    ensures ReadFields(KindsOf(vs), In(RW(c, None), FieldsBytes(vs, orders) + tail)) ==
      Step(ReadBacks(vs), In(RW(c + |FieldsBytes(vs, orders)|, None), tail))
  {
    FieldsReadBack(c, vs, orders, tail);
  }

  // ---------------------------------------------------------------------------
  // The same on streams.

  method ReadIntOfWidth(rw: ReadWriter, k: IntWidth, r: Reader) returns (x: int)
    modifies rw, r
    ensures Step(x, In(rw.State(), r.rest)) == ReadInt(In(old(rw.State()), old(r.rest)), k, ReadIntName(k))
  {
    if k == 1 {
      var y := rw.ReadInt8(r); x := y;
    } else if k == 2 {
      var y := rw.ReadInt16(r); x := y;
    } else if k == 4 {
      var y := rw.ReadInt32(r); x := y;
    } else {
      var y := rw.ReadInt64(r); x := y;
    }
  }

  method ReadFieldFrom(rw: ReadWriter, k: Kind, r: Reader) returns (v: Value)
    modifies rw, r
    ensures Step(v, In(rw.State(), r.rest)) == ReadField(k, In(old(rw.State()), old(r.rest)))
  {
    match k {
      case KInt(_) => v := ReadNumberFrom(rw, k, r);
      case KFloat(_) => v := ReadNumberFrom(rw, k, r);
      case KString => v := ReadCompositeFrom(rw, k, r);
      case KBool => v := ReadCompositeFrom(rw, k, r);
      case KSlot => v := ReadCompositeFrom(rw, k, r);
      case KObjectData => v := ReadCompositeFrom(rw, k, r);
      case KMetadata => v := ReadCompositeFrom(rw, k, r);
      case KBytes(w) =>
        var length := ReadIntOfWidth(rw, w, r);
        var x := rw.ReadBytes(r, length);
        v := VBytes(w, x);
      case KRaw(n) => var x := rw.ReadBytes(r, n); v := VRaw(n, x);
    }
  }

  /** The fixed-width numbers on a stream: proved to act as `ReadNumber`. */
  method ReadNumberFrom(rw: ReadWriter, k: Kind, r: Reader) returns (v: Value)
    requires k.KInt? || k.KFloat?
    modifies rw, r
    ensures Step(v, In(rw.State(), r.rest)) == ReadNumber(k, In(old(rw.State()), old(r.rest)))
  {
    match k {
      case KInt(w) =>
        var x := ReadIntOfWidth(rw, w, r);
        v := VInt(w, x);
      case KFloat(w) =>
        if w == 4 {
          var x := rw.ReadFloat32(r); v := VFloat(w, x);
        } else {
          var x := rw.ReadFloat64(r); v := VFloat(w, x);
        }
    }
  }

  /** The composites on a stream: proved to act as `ReadComposite`. */
  method ReadCompositeFrom(rw: ReadWriter, k: Kind, r: Reader) returns (v: Value)
    requires k.KString? || k.KBool? || k.KSlot? || k.KObjectData? || k.KMetadata?
    modifies rw, r
    ensures Step(v, In(rw.State(), r.rest)) == ReadComposite(k, In(old(rw.State()), old(r.rest)))
  {
    match k {
      case KString => var x := ReadString(rw, r); v := VString(x);
      case KBool => var x := ReadBool(rw, r); v := VBool(x);
      case KSlot => var x := ReadSlot(rw, r); v := VSlot(x);
      case KObjectData => var x := ReadObjectData(rw, r); v := VObjectData(x);
      case KMetadata => var x := ReadMetadata(rw, r); v := VMetadata(x);
    }
  }

  /** One step of `ReadFieldsFrom`'s loop: the next field joins the values read so far. */
  lemma ReadFieldsStep(layout: seq<Kind>, i: nat, st: In, vs: seq<Value>, goal: Step<seq<Value>>)
    requires i < |layout|
    requires var t := ReadFields(layout[i..], st); Step(vs + t.value, t.st) == goal
    ensures var f := ReadField(layout[i], st);
      var t := ReadFields(layout[i + 1..], f.st);
      Step((vs + [f.value]) + t.value, t.st) == goal
  {
    ReadFieldsAt(layout, i, st);
    var f := ReadField(layout[i], st);
    var t := ReadFields(layout[i + 1..], f.st);
    Associative(vs, [f.value], t.value);
  }

  /** `ReadFieldsCons` on the suffix of a layout from `i`. */
  lemma ReadFieldsAt(layout: seq<Kind>, i: nat, st: In)
    requires i < |layout|
    ensures ReadFields(layout[i..], st) ==
      var f := ReadField(layout[i], st);
      var more := ReadFields(layout[i + 1..], f.st);
      Step([f.value] + more.value, more.st)
  {
    ReadFieldsCons(layout[i..], st);
    assert layout[i..][1..] == layout[i + 1..];
  }

  /** Reads the fields of a layout in order: proved against `ReadFields`. */
  method ReadFieldsFrom(rw: ReadWriter, layout: seq<Kind>, r: Reader) returns (vs: seq<Value>)
    modifies rw, r
    ensures Step(vs, In(rw.State(), r.rest)) == ReadFields(layout, In(old(rw.State()), old(r.rest)))
  {
    vs := [];
    var i := 0;
    ghost var goal := ReadFields(layout, In(rw.State(), r.rest));
    assert layout[0..] == layout;
    assert vs + goal.value == goal.value;
    while i < |layout|
      invariant 0 <= i <= |layout|
      invariant var t := ReadFields(layout[i..], In(rw.State(), r.rest));
        Step(vs + t.value, t.st) == goal
    {
      ReadFieldsStep(layout, i, In(rw.State(), r.rest), vs, goal);
      var v := ReadFieldFrom(rw, layout[i], r);
      vs := vs + [v];
      i := i + 1;
    }
    assert vs + [] == vs;
  }

  /** The `Write*` call of the field's kind: proved to act as `WriteField`. */
  method WriteFieldTo(rw: ReadWriter, w: Writer, v: Value) returns (ghost order: seq<Byte>)
    modifies rw, w
    ensures v.VMetadata? && old(rw.Err).None? ==> Metadata.IsEnumeration(order, v.meta)
    ensures Out(rw.State(), w.State()) == WriteField(Out(old(rw.State()), old(w.State())), v, order)
  {
    order := [];
    match v {
      case VInt(k, x) => rw.Write(w, Encode(Wrap(x, k), k), WriteIntName(k));
      case VFloat(k, f) => rw.Write(w, BytesOf(f % Pow256(k), k), WriteFloatName(k));
      case VString(s) => WriteString(rw, w, s);
      case VBool(b) => WriteBool(rw, w, b);
      case VSlot(s) => WriteSlot(rw, w, s);
      case VObjectData(d) => WriteObjectData(rw, w, d);
      case VMetadata(m) => order := WriteMetadata(rw, w, m);
      case VBytes(k, bs) => WritePrefixed(rw, w, k, bs);
      case VRaw(_, bs) => rw.WriteByteArray(w, bs);
    }
  }

  /** A length prefix of width k, then the bytes: one write of both as far as the stream can tell. */
  method WritePrefixed(rw: ReadWriter, w: Writer, k: PrefixWidth, bs: seq<Byte>)
    modifies rw, w
    ensures Out(rw.State(), w.State()) ==
      WriteBytes(Out(old(rw.State()), old(w.State())), Encode(Wrap(|bs|, k), k) + bs, WriteIntName(k))
  {
    ghost var o := Out(rw.State(), w.State());
    FitsWidths(Wrap(|bs|, k));
    var prefix := Encode(Wrap(|bs|, k), k);
    rw.Write(w, prefix, WriteIntName(k));
    rw.WriteByteArray(w, bs);
    WriteBytesChain(o, prefix, bs, WriteIntName(k), "WriteByteArray");
  }

  /** Writing one more field after a list of them. */
  lemma {:induction false} WriteFieldsSnoc(o: Out, vs: seq<Value>, orders: seq<seq<Byte>>, v: Value, order: seq<Byte>)
    requires |orders| == |vs|
    ensures WriteFields(o, vs + [v], orders + [order]) == WriteField(WriteFields(o, vs, orders), v, order)
    decreases |vs|
  {
    if vs == [] {
      assert [v][1..] == [] && [order][1..] == [];
    } else {
      assert (vs + [v])[1..] == vs[1..] + [v];
      assert (orders + [order])[1..] == orders[1..] + [order];
      WriteFieldsSnoc(WriteField(o, vs[0], orders[0]), vs[1..], orders[1..], v, order);
    }
  }

  /** Writing two runs of fields one after the other is writing the joined run. */
  lemma {:induction false} WriteFieldsAppend(o: Out, a: seq<Value>, b: seq<Value>, oa: seq<seq<Byte>>, ob: seq<seq<Byte>>)
    requires |oa| == |a| && |ob| == |b|
    ensures WriteFields(o, a + b, oa + ob) == WriteFields(WriteFields(o, a, oa), b, ob)
    decreases |a|
  {
    if a == [] {
      assert a + b == b && oa + ob == ob;
    } else {
      assert (a + b)[1..] == a[1..] + b;
      assert (oa + ob)[1..] == oa[1..] + ob;
      WriteFieldsAppend(WriteField(o, a[0], oa[0]), a[1..], b, oa[1..], ob);
    }
  }

  /** The metadata maps among the first |orders| values are enumerated in their orders. */
  predicate Enumerated(vs: seq<Value>, orders: seq<seq<Byte>>)
    requires |orders| <= |vs|
  {
    forall j :: 0 <= j < |orders| && vs[j].VMetadata? ==> Metadata.IsEnumeration(orders[j], vs[j].meta)
  }

  lemma EnumeratedSnoc(vs: seq<Value>, orders: seq<seq<Byte>>, order: seq<Byte>)
    requires |orders| < |vs| && Enumerated(vs, orders)
    requires vs[|orders|].VMetadata? ==> Metadata.IsEnumeration(order, vs[|orders|].meta)
    ensures Enumerated(vs, orders + [order])
  {
  }

  lemma PrefixSnoc<T>(xs: seq<T>, i: nat)
    requires i < |xs|
    ensures xs[..i + 1] == xs[..i] + [xs[i]]
  {
  }

  /** Writes the fields in order: proved against `WriteFields`, with the enumeration order each metadata map was written in. */
  method WriteFieldsTo(rw: ReadWriter, w: Writer, vs: seq<Value>) returns (ghost orders: seq<seq<Byte>>)
    modifies rw, w
    ensures |orders| == |vs|
    ensures Out(rw.State(), w.State()) == WriteFields(Out(old(rw.State()), old(w.State())), vs, orders)
    ensures rw.Err.None? ==> Enumerated(vs, orders)
  {
    orders := [];
    var i := 0;
    ghost var start := Out(rw.State(), w.State());
    assert vs[..0] == [];
    while i < |vs|
      invariant 0 <= i <= |vs| && |orders| == i
      invariant Out(rw.State(), w.State()) == WriteFields(start, vs[..i], orders)
      invariant rw.Err.None? ==> Enumerated(vs, orders)
    {
      ghost var before := Out(rw.State(), w.State());
      var order := WriteFieldTo(rw, w, vs[i]);
      WriteFieldsSnoc(start, vs[..i], orders, vs[i], order);
      PrefixSnoc(vs, i);
      if rw.Err.None? {
        assert before.rw.err.None?;
        EnumeratedSnoc(vs, orders, order);
      }
      orders := orders + [order];
      i := i + 1;
    }
    assert vs[..i] == vs;
  }
}
