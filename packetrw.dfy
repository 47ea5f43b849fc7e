/**
 * `MustReadWriter`: the sticky-error reader/writer of the packet codecs,
 * extended with the protocol's composite types. Each operation does nothing
 * once an error is recorded; otherwise it runs the type's own codec on the
 * stream. When that codec succeeds, the bytes it reports are added to the
 * count. When it fails, the error is recorded under the operation's name,
 * nothing is counted, and a read returns the type's zero value. A panic inside
 * a codec is not an error value and propagates unchanged.
 *
 * Like the embedded ReadWriter, the Go methods have value receivers; the model
 * keeps the documented behaviour in which the updates stick.
 */
module PacketRW {
  import opened Opt
  import opened Integers
  import opened Must
  import McString
  import McBool
  import Slots
  import ObjectDatas
  import Metadata

  /** The error recorded for a failed codec: a panic propagates, an I/O error is renamed. */
  function Wrapped(err: Error, op: string): (e: Error)
    ensures err.Panic? ==> e == err
    ensures err.IoError? ==> e == IoError(op)
  {
    if err.Panic? then err else IoError(op)
  }

  /** The zero `ObjectData`, which `ReadObjectData` reads into. */
  const ZeroObjectData: ObjectDatas.ObjectData := ObjectDatas.ObjectData(0, 0, 0, 0)

  // ---------------------------------------------------------------------------
  // Reads.

  /** `ReadString`. */
  function ReadStr(st: In): (r: Step<string>)
    ensures st.rw.err.Some? ==> r == Step("", st)
    ensures r.st.rw.err.Some? ==> r.value == ""
    ensures st.rw.err.None? && r.st.rw.err.Some? ==> r.st.rw == RW(st.rw.n, Some(IoError("ReadString")))
    ensures Advances(st, r.st)
  {
    if st.rw.err.Some? then Step("", st)
    else
      match McString.ReadFrom(st.rest)
      case Decoded(v, n, rest) => Step(v, In(RW(st.rw.n + n, None), rest))
      case Failed(_, rest) => Step("", In(RW(st.rw.n, Some(IoError("ReadString"))), rest))
  }

  /** `ReadBool`. */
  function ReadBoolean(st: In): (r: Step<bool>)
    ensures st.rw.err.Some? ==> r == Step(false, st)
    ensures st.rw.err.None? ==>
      if |st.rest| == 0 then r == Step(false, In(RW(st.rw.n, Some(IoError("ReadBool"))), []))
      else r == Step(st.rest[0] == 0x01, In(RW(st.rw.n + 1, None), st.rest[1..]))
    ensures Advances(st, r.st)
  {
    if st.rw.err.Some? then Step(false, st)
    else
      match McBool.ReadFrom(st.rest)
      case Decoded(v, n, rest) => Step(v, In(RW(st.rw.n + n, None), rest))
      case Failed(_, rest) => Step(false, In(RW(st.rw.n, Some(IoError("ReadBool"))), rest))
  }

  /** `ReadSlot`: a slot from `NewSlot`, filled from the stream; nil on failure. */
  function ReadSlotField(st: In): (r: Step<Option<Slots.Slot>>)
    ensures st.rw.err.Some? ==> r == Step(None, st)
    ensures r.st.rw.err.None? <==> r.value.Some?
    ensures st.rw.err.None? && r.st.rw.err.Some? ==> r.st.rw == RW(st.rw.n, Some(IoError("ReadSlot")))
    ensures Advances(st, r.st)
  {
    if st.rw.err.Some? then Step(None, st)
    else
      var d := Slots.ReadFrom(Slots.NewSlot(), st.rest);
      if d.st.rw.err.None? then Step(Some(d.value), In(RW(st.rw.n + d.st.rw.n, None), d.st.rest))
      else Step(None, In(RW(st.rw.n, Some(Wrapped(d.st.rw.err.value, "ReadSlot"))), d.st.rest))
  }

  /** `ReadObjectData`: a zero value filled from the stream; nil on failure. */
  function ReadObjectDataField(st: In): (r: Step<Option<ObjectDatas.ObjectData>>)
    ensures st.rw.err.Some? ==> r == Step(None, st)
    ensures r.st.rw.err.None? <==> r.value.Some?
    ensures st.rw.err.None? && r.st.rw.err.Some? ==> r.st.rw == RW(st.rw.n, Some(IoError("ReadObjectData")))
    ensures Advances(st, r.st)
  {
    if st.rw.err.Some? then Step(None, st)
    else
      var d := ObjectDatas.ReadFrom(ZeroObjectData, st.rest);
      if d.st.rw.err.None? then Step(Some(d.value), In(RW(st.rw.n + d.st.rw.n, None), d.st.rest))
      else Step(None, In(RW(st.rw.n, Some(Wrapped(d.st.rw.err.value, "ReadObjectData"))), d.st.rest))
  }

  /** `ReadMetadata`: a new, empty map filled from the stream; an empty map on failure. */
  function ReadMetadataField(st: In): (r: Step<map<Byte, Metadata.Entry>>)
    ensures st.rw.err.Some? ==> r == Step(map[], st)
    ensures r.st.rw.err.Some? ==> r.value == map[]
    ensures Advances(st, r.st)
  {
    if st.rw.err.Some? then Step(map[], st)
    else
      var d := Metadata.Read(st.rest);
      if d.st.rw.err.None? then Step(d.value, In(RW(st.rw.n + d.st.rw.n, None), d.st.rest))
      else Step(map[], In(RW(st.rw.n, Some(Wrapped(d.st.rw.err.value, "ReadMetadata"))), d.st.rest))
  }

  // ---------------------------------------------------------------------------
  // Writes.

  /** The bytes of a string: the unit count, then the units. */
  function StrBytes(s: string): (bs: seq<Byte>)
    ensures |bs| == 2 + 2 * |McString.EncodeUtf16(s)|
  {
    McString.WriteToCounted(s).0
  }

  /** `WriteString`: the string's own count is added on success. */
  function WriteStr(o: Out, s: string): (r: Out)
    ensures r == WriteBytes(o, StrBytes(s), "WriteString")
  {
    if o.rw.err.Some? then o
    else if o.sink.broken then Out(RW(o.rw.n, Some(IoError("WriteString"))), o.sink)
    else
      var (bs, n) := McString.WriteToCounted(s);
      Out(RW(o.rw.n + n, None), Sink(o.sink.out + bs, false))
  }

  /** `WriteBool`. */
  function WriteBoolean(o: Out, b: bool): (r: Out)
    ensures r == WriteBytes(o, [if b then 0x01 else 0x00], "WriteBool")
  {
    if o.rw.err.Some? then o
    else if o.sink.broken then Out(RW(o.rw.n, Some(IoError("WriteBool"))), o.sink)
    else
      var (bs, n) := McBool.WriteTo(b);
      Out(RW(o.rw.n + n, None), Sink(o.sink.out + bs, false))
  }

  /** `WriteSlot`: a nil slot is dereferenced, which panics. */
  function WriteSlotField(o: Out, s: Option<Slots.Slot>): (r: Out)
    ensures s.Some? ==> r == WriteBytes(o, Slots.Bytes(s.value), "WriteSlot")
    ensures s.None? ==> r == if o.rw.err.Some? then o else Out(RW(o.rw.n, Some(Panic("nil slot"))), o.sink)
  {
    if o.rw.err.Some? then o
    else if s.None? then Out(Raise(o.rw, "nil slot"), o.sink)
    else
      var w := Slots.WriteTo(s.value, o.sink);
      if w.rw.err.None? then Out(RW(o.rw.n + w.rw.n, None), w.sink)
      else Out(RW(o.rw.n, Some(Wrapped(w.rw.err.value, "WriteSlot"))), w.sink)
  }

  /** `WriteObjectData`: a nil value is dereferenced, which panics. */
  function WriteObjectDataField(o: Out, d: Option<ObjectDatas.ObjectData>): (r: Out)
    ensures d.Some? ==> r == WriteBytes(o, ObjectDatas.Bytes(d.value), "WriteObjectData")
    ensures d.None? ==> r == if o.rw.err.Some? then o else Out(RW(o.rw.n, Some(Panic("nil object data"))), o.sink)
  {
    if o.rw.err.Some? then o
    else if d.None? then Out(Raise(o.rw, "nil object data"), o.sink)
    else
      var w := ObjectDatas.WriteTo(d.value, o.sink);
      if w.rw.err.None? then Out(RW(o.rw.n + w.rw.n, None), w.sink)
      else Out(RW(o.rw.n, Some(Wrapped(w.rw.err.value, "WriteObjectData"))), w.sink)
  }

  /** `WriteMetadata`, the map being enumerated in `order`. */
  function WriteMetadataField(o: Out, m: map<Byte, Metadata.Entry>, order: seq<Byte>): (r: Out)
    ensures r == WriteBytes(o, Metadata.Bytes(m, order), "WriteMetadata")
  {
    if o.rw.err.Some? then o
    else
      var w := Metadata.WriteTo(m, order, o.sink);
      if w.rw.err.None? then Out(RW(o.rw.n + w.rw.n, None), w.sink)
      else Out(RW(o.rw.n, Some(Wrapped(w.rw.err.value, "WriteMetadata"))), w.sink)
  }

  // ---------------------------------------------------------------------------
  // Round trips: what a write puts on the wire, the matching read takes back.

  lemma StringRoundTrip(c: int, s: string, tail: seq<Byte>)
    requires |McString.EncodeUtf16(s)| <= 0xFFFF
    ensures ReadStr(In(RW(c, None), StrBytes(s) + tail)) == Step(s, In(RW(c + |StrBytes(s)|, None), tail))
  {
    McString.ReadWriteRoundTrip(s, tail);
  }

  lemma BoolRoundTrip(c: int, b: bool, tail: seq<Byte>)
    ensures ReadBoolean(In(RW(c, None), [if b then 0x01 else 0x00] + tail)) == Step(b, In(RW(c + 1, None), tail))
  {
    McBool.ReadWriteRoundTrip(b, tail);
  }

  /** A slot reads back as written, except that an empty slot reads back as `NewSlot`. */
  lemma SlotRoundTrip(c: int, s: Slots.Slot, tail: seq<Byte>)
    requires Slots.Valid(s)
    ensures ReadSlotField(In(RW(c, None), Slots.Bytes(s) + tail)) ==
      Step(Some(if s.blockId == -1 then Slots.NewSlot() else s), In(RW(c + |Slots.Bytes(s)|, None), tail))
  {
    Slots.ReadWriteRoundTrip(s, Slots.NewSlot(), tail);
  }

  /** Object data reads back as written, except that a zero value carries no speeds. */
  lemma ObjectDataRoundTrip(c: int, d: ObjectDatas.ObjectData, tail: seq<Byte>)
    ensures ReadObjectDataField(In(RW(c, None), ObjectDatas.Bytes(d) + tail)) ==
      Step(Some(if d.data == 0 then ZeroObjectData else d), In(RW(c + |ObjectDatas.Bytes(d)|, None), tail))
  {
    ObjectDatas.ReadWriteRoundTrip(d, ZeroObjectData, tail);
  }

  lemma MetadataRoundTrip(c: int, m: map<Byte, Metadata.Entry>, order: seq<Byte>, tail: seq<Byte>)
    requires Metadata.Valid(m) && Metadata.IsEnumeration(order, m)
    ensures ReadMetadataField(In(RW(c, None), Metadata.Bytes(m, order) + tail)) ==
      Step(m, In(RW(c + |Metadata.Bytes(m, order)|, None), tail))
  {
    Metadata.ReadWriteRoundTrip(m, order, tail);
  }

  // ---------------------------------------------------------------------------
  // The same on streams; the receiver is the `rw` parameter.

  method ReadString(rw: ReadWriter, r: Reader) returns (res: string)
    modifies rw, r
    ensures Step(res, In(rw.State(), r.rest)) == ReadStr(In(old(rw.State()), old(r.rest)))
  {
    if rw.Err.Some? {
      return "";
    }
    var d := McString.ReadFrom(r.rest);
    r.rest := d.rest;
    if d.Failed? {
      rw.Err := Some(IoError("ReadString"));
      return "";
    }
    rw.N := rw.N + d.n;
    res := d.value;
  }

  method ReadBool(rw: ReadWriter, r: Reader) returns (res: bool)
    modifies rw, r
    ensures Step(res, In(rw.State(), r.rest)) == ReadBoolean(In(old(rw.State()), old(r.rest)))
  {
    if rw.Err.Some? {
      return false;
    }
    var d := McBool.ReadFrom(r.rest);
    r.rest := d.rest;
    if d.Failed? {
      rw.Err := Some(IoError("ReadBool"));
      return false;
    }
    rw.N := rw.N + d.n;
    res := d.value;
  }

  method ReadSlot(rw: ReadWriter, r: Reader) returns (res: Option<Slots.Slot>)
    modifies rw, r
    ensures Step(res, In(rw.State(), r.rest)) == ReadSlotField(In(old(rw.State()), old(r.rest)))
  {
    if rw.Err.Some? {
      return None;
    }
    var t, n, err := Slots.ReadSlotFrom(Slots.NewSlot(), r);
    if err.Some? {
      rw.Err := Some(Wrapped(err.value, "ReadSlot"));
      return None;
    }
    rw.N := rw.N + n;
    res := Some(t);
  }

  method ReadObjectData(rw: ReadWriter, r: Reader) returns (res: Option<ObjectDatas.ObjectData>)
    modifies rw, r
    ensures Step(res, In(rw.State(), r.rest)) == ReadObjectDataField(In(old(rw.State()), old(r.rest)))
  {
    if rw.Err.Some? {
      return None;
    }
    var t, n, err := ObjectDatas.ReadObjectDataFrom(ZeroObjectData, r);
    if err.Some? {
      rw.Err := Some(Wrapped(err.value, "ReadObjectData"));
      return None;
    }
    rw.N := rw.N + n;
    res := Some(t);
  }

  method ReadMetadata(rw: ReadWriter, r: Reader) returns (res: map<Byte, Metadata.Entry>)
    modifies rw, r
    ensures Step(res, In(rw.State(), r.rest)) == ReadMetadataField(In(old(rw.State()), old(r.rest)))
  {
    if rw.Err.Some? {
      return map[];
    }
    var t, n, err := Metadata.ReadMetadataFrom(map[], r);
    if err.Some? {
      rw.Err := Some(Wrapped(err.value, "ReadMetadata"));
      return map[];
    }
    rw.N := rw.N + n;
    res := t;
  }

  method WriteString(rw: ReadWriter, w: Writer, value: string)
    modifies rw, w
    ensures Out(rw.State(), w.State()) == WriteStr(Out(old(rw.State()), old(w.State())), value)
  {
    if rw.Err.Some? {
      return;
    }
    if w.broken {
      rw.Err := Some(IoError("WriteString"));
      return;
    }
    var (bs, n) := McString.WriteToCounted(value);
    w.out := w.out + bs;
    rw.N := rw.N + n;
  }

  method WriteBool(rw: ReadWriter, w: Writer, value: bool)
    modifies rw, w
    ensures Out(rw.State(), w.State()) == WriteBoolean(Out(old(rw.State()), old(w.State())), value)
  {
    if rw.Err.Some? {
      return;
    }
    if w.broken {
      rw.Err := Some(IoError("WriteBool"));
      return;
    }
    var (bs, n) := McBool.WriteTo(value);
    w.out := w.out + bs;
    rw.N := rw.N + n;
  }

  method WriteSlot(rw: ReadWriter, w: Writer, value: Option<Slots.Slot>)
    modifies rw, w
    ensures Out(rw.State(), w.State()) == WriteSlotField(Out(old(rw.State()), old(w.State())), value)
  {
    if rw.Err.Some? {
      return;
    }
    if value.None? {
      rw.Err := Some(Panic("nil slot"));
      return;
    }
    var n, err := Slots.WriteSlotTo(value.value, w);
    if err.Some? {
      rw.Err := Some(Wrapped(err.value, "WriteSlot"));
      return;
    }
    rw.N := rw.N + n;
  }

  method WriteObjectData(rw: ReadWriter, w: Writer, value: Option<ObjectDatas.ObjectData>)
    modifies rw, w
    ensures Out(rw.State(), w.State()) == WriteObjectDataField(Out(old(rw.State()), old(w.State())), value)
  {
    if rw.Err.Some? {
      return;
    }
    if value.None? {
      rw.Err := Some(Panic("nil object data"));
      return;
    }
    var n, err := ObjectDatas.WriteObjectDataTo(value.value, w);
    if err.Some? {
      rw.Err := Some(Wrapped(err.value, "WriteObjectData"));
      return;
    }
    rw.N := rw.N + n;
  }

  /** The map is enumerated in an order of the method's choosing, returned as `order`. */
  method WriteMetadata(rw: ReadWriter, w: Writer, value: map<Byte, Metadata.Entry>) returns (ghost order: seq<Byte>)
    modifies rw, w
    ensures old(rw.Err).None? ==> Metadata.IsEnumeration(order, value)
    ensures Out(rw.State(), w.State()) == WriteMetadataField(Out(old(rw.State()), old(w.State())), value, order)
  {
    if rw.Err.Some? {
      return [];
    }
    var n, err;
    n, err, order := Metadata.WriteMetadataTo(value, w);
    if err.Some? {
      rw.Err := Some(Wrapped(err.value, "WriteMetadata"));
      return;
    }
    rw.N := rw.N + n;
  }
}
