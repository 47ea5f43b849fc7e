/**
 * The packets of the Minecraft 1.5 protocol as `packet.go` encodes them. Each
 * packet struct is a datatype with its fields, and carries the struct's
 * methods: `Id`, `ReadFrom` (on the receiver, without the id, which the caller
 * has already read) and `WriteTo` (the id through the `Must` hook, then the
 * fields). For every packet the kinds `ReadFrom` reads are a `Layout` and the
 * values `WriteTo` writes are its `Fields`; `RoundTrip` proves that reading
 * back what was written gives the packet again.
 *
 * Positions and angles that the source converts with `abs.Pos`/`abs.Look`
 * are kept as the wire integers; float fields are raw bit patterns.
 */
module Packets {
  import opened Opt
  import opened Integers
  import opened Must
  import opened Fields
  import Slots
  import ObjectDatas
  import Metadata

  type Uint16 = u: int | 0 <= u < 0x1_0000

  /** The four lines of a sign. */
  type Lines = s: seq<string> | |s| == 4 witness ["", "", "", ""]

  // ---------------------------------------------------------------------------
  // Go's conversions between the signed wire types and `byte`/`uint16`.

  function AsInt8(b: Byte): (x: Int8)
    ensures AsByte(x) == b
  {
    if b < 0x80 then b else b - 0x100
  }

  function AsByte(x: Int8): (b: Byte)
  {
    if x < 0 then x + 0x100 else x
  }

  function AsInt16(u: Uint16): (x: Int16)
    ensures AsUint16(x) == u
  {
    if u < 0x8000 then u else u - 0x1_0000
  }

  function AsUint16(x: Int16): (u: Uint16)
  {
    if x < 0 then x + 0x1_0000 else x
  }

  // ---------------------------------------------------------------------------
  // The values a read produced, taken back out by position. A read produces
  // values of its layout's kinds (`ReadFields` ensures it); the zero value
  // stands for a position that is missing or of another kind.

  function I8At(vs: seq<Value>, i: nat): Int8
  {
    if i < |vs| && vs[i].VInt? && -0x80 <= vs[i].i < 0x80 then vs[i].i else 0
  }

  function I16At(vs: seq<Value>, i: nat): Int16
  {
    if i < |vs| && vs[i].VInt? && -0x8000 <= vs[i].i < 0x8000 then vs[i].i else 0
  }

  function I32At(vs: seq<Value>, i: nat): Int32
  {
    if i < |vs| && vs[i].VInt? && -0x8000_0000 <= vs[i].i < 0x8000_0000 then vs[i].i else 0
  }

  function I64At(vs: seq<Value>, i: nat): Int64
  {
    if i < |vs| && vs[i].VInt? && -0x8000_0000_0000_0000 <= vs[i].i < 0x8000_0000_0000_0000 then vs[i].i else 0
  }

  function F32At(vs: seq<Value>, i: nat): Float32Bits
  {
    if i < |vs| && vs[i].VFloat? && vs[i].bits < 0x1_0000_0000 then vs[i].bits else 0
  }

  function F64At(vs: seq<Value>, i: nat): Float64Bits
  {
    if i < |vs| && vs[i].VFloat? && vs[i].bits < 0x1_0000_0000_0000_0000 then vs[i].bits else 0
  }

  function StrAt(vs: seq<Value>, i: nat): string
  {
    if i < |vs| && vs[i].VString? then vs[i].str else ""
  }

  function BoolAt(vs: seq<Value>, i: nat): bool
  {
    i < |vs| && vs[i].VBool? && vs[i].b
  }

  function SlotAt(vs: seq<Value>, i: nat): Option<Slots.Slot>
  {
    if i < |vs| && vs[i].VSlot? then vs[i].slot else None
  }

  function ObjAt(vs: seq<Value>, i: nat): Option<ObjectDatas.ObjectData>
  {
    if i < |vs| && vs[i].VObjectData? then vs[i].obj else None
  }

  function MetaAt(vs: seq<Value>, i: nat): map<Byte, Metadata.Entry>
  {
    if i < |vs| && vs[i].VMetadata? then vs[i].meta else map[]
  }

  function BytesAt(vs: seq<Value>, i: nat): seq<Byte>
  {
    if i < |vs| && vs[i].VBytes? then vs[i].bytes
    else if i < |vs| && vs[i].VRaw? then vs[i].raw
    else []
  }

  // ---------------------------------------------------------------------------
  // Counted runs of fields.

  function Repeat(k: Kind, n: nat): (ks: seq<Kind>)
    ensures |ks| == n && forall i :: 0 <= i < n ==> ks[i] == k
  {
    seq(n, _ => k)
  }

  function Int32Values(xs: seq<Int32>): (vs: seq<Value>)
    ensures |vs| == |xs| && forall i :: 0 <= i < |xs| ==> vs[i] == VInt(4, xs[i])
  {
    seq(|xs|, i requires 0 <= i < |xs| => VInt(4, xs[i]))
  }

  function Int32s(vs: seq<Value>): (xs: seq<Int32>)
    ensures |xs| == |vs| && forall i :: 0 <= i < |vs| ==> xs[i] == I32At(vs, i)
  {
    seq(|vs|, i requires 0 <= i < |vs| => I32At(vs, i))
  }

  /** Reading back written `int32`s gives them again. */
  lemma Int32sRoundTrip(xs: seq<Int32>)
    ensures KindsOf(Int32Values(xs)) == Repeat(KInt(4), |xs|)
    ensures Int32s(ReadBacks(Int32Values(xs))) == xs
  {
  }

  function StringValues(ss: seq<string>): (vs: seq<Value>)
    ensures |vs| == |ss| && forall i :: 0 <= i < |ss| ==> vs[i] == VString(ss[i])
  {
    seq(|ss|, i requires 0 <= i < |ss| => VString(ss[i]))
  }

  function Strings(vs: seq<Value>): (ss: seq<string>)
    ensures |ss| == |vs| && forall i :: 0 <= i < |vs| ==> ss[i] == StrAt(vs, i)
  {
    seq(|vs|, i requires 0 <= i < |vs| => StrAt(vs, i))
  }

  /** Reading back written strings gives them again. */
  lemma StringsRoundTrip(ss: seq<string>)
    ensures KindsOf(StringValues(ss)) == Repeat(KString, |ss|)
    ensures Strings(ReadBacks(StringValues(ss))) == ss
  {
  }

  function SlotValues(ss: seq<Option<Slots.Slot>>): (vs: seq<Value>)
    ensures |vs| == |ss| && forall i :: 0 <= i < |ss| ==> vs[i] == VSlot(ss[i])
  {
    seq(|ss|, i requires 0 <= i < |ss| => VSlot(ss[i]))
  }

  lemma SlotValuesSnoc(ss: seq<Option<Slots.Slot>>, i: nat)
    requires i < |ss|
    ensures SlotValues(ss[..i]) + [VSlot(ss[i])] == SlotValues(ss[..i + 1])
  {
  }

  function SlotsOf(vs: seq<Value>): (ss: seq<Option<Slots.Slot>>)
    ensures |ss| == |vs| && forall i :: 0 <= i < |vs| ==> ss[i] == SlotAt(vs, i)
  {
    seq(|vs|, i requires 0 <= i < |vs| => SlotAt(vs, i))
  }

  function ReadBackSlots(ss: seq<Option<Slots.Slot>>): (rs: seq<Option<Slots.Slot>>)
    ensures |rs| == |ss| && forall i :: 0 <= i < |ss| ==> rs[i] == ReadBackSlot(ss[i])
  {
    seq(|ss|, i requires 0 <= i < |ss| => ReadBackSlot(ss[i]))
  }

  /** Reading back written slots gives them again, an empty one as `NewSlot`. */
  lemma SlotsRoundTrip(ss: seq<Option<Slots.Slot>>)
    ensures KindsOf(SlotValues(ss)) == Repeat(KSlot, |ss|)
    ensures SlotsOf(ReadBacks(SlotValues(ss))) == ReadBackSlots(ss)
  {
  }

  /** The runtime panics of `make` with a negative length and of an index past the end. */
  const MakeSlice := "makeslice: len out of range"
  const IndexOutOfRange := "index out of range"

  /** Values that read back as written: neither slots nor object data. */
  predicate Plain(vs: seq<Value>)
  {
    forall i :: 0 <= i < |vs| ==> !vs[i].VSlot? && !vs[i].VObjectData?
  }

  lemma PlainAppend(a: seq<Value>, b: seq<Value>)
    requires Plain(a) && Plain(b)
    ensures Plain(a + b)
  {
    forall i | 0 <= i < |a + b|
      ensures !(a + b)[i].VSlot? && !(a + b)[i].VObjectData?
    {
      if i >= |a| { assert (a + b)[i] == b[i - |a|]; }
    }
  }

  lemma PlainReadBack(vs: seq<Value>)
    requires Plain(vs)
    ensures ReadBacks(vs) == vs
  {
  }

  /** One chunk column of `MapChunkBulk`: its coordinates and its section bit masks. */
  datatype ChunkMeta = ChunkMeta(x: Int32, z: Int32, primary: Uint16, add: Uint16)

  /** One block of an `Explosion`, relative to its centre. */
  datatype BlockRecord = BlockRecord(x: Int8, y: Int8, z: Int8)

  /** The fields of `n` chunk metas. */
  function MetaLayout(n: nat): (ks: seq<Kind>)
    ensures |ks| == 4 * n && forall i :: 0 <= i < |ks| ==> ks[i].KInt?
  {
    if n == 0 then [] else [KInt(4), KInt(4), KInt(2), KInt(2)] + MetaLayout(n - 1)
  }

  /** No panic is recorded in the state. */
  predicate NoPanic(rw: RW)
  {
    !(rw.err.Some? && rw.err.value.Panic?)
  }

  /** Reading integers records no panic: a short stream is an I/O error. */
  lemma {:induction false} IntsNoPanic(layout: seq<Kind>, st: In)
    requires forall i :: 0 <= i < |layout| ==> layout[i].KInt?
    requires NoPanic(st.rw)
    ensures NoPanic(ReadFields(layout, st).st.rw)
    decreases |layout|
  {
    if layout != [] {
      var f := ReadField(layout[0], st);
      assert NoPanic(f.st.rw);
      IntsNoPanic(layout[1..], f.st);
    }
  }

  lemma MetaLayoutNoPanic(n: nat, st: In)
    requires NoPanic(st.rw)
    ensures NoPanic(ReadFields(MetaLayout(n), st).st.rw)
  {
    IntsNoPanic(MetaLayout(n), st);
  }

  /** Chunk metas as they are written: the masks go out as `int16`. */
  function MetaValues(ms: seq<ChunkMeta>): (vs: seq<Value>)
    ensures |vs| == 4 * |ms| && Plain(vs)
    ensures forall i :: 0 <= i < |vs| ==> vs[i].VInt? && Fits(vs[i].i, vs[i].iw)
  {
    if ms == [] then []
    else [VInt(4, ms[0].x), VInt(4, ms[0].z), VInt(2, AsInt16(ms[0].primary)), VInt(2, AsInt16(ms[0].add))] + MetaValues(ms[1..])
  }

  /** Chunk metas as they are read, four values each; the masks come back as `uint16`. */
  function Metas(vs: seq<Value>): (ms: seq<ChunkMeta>)
    ensures |ms| == |vs| / 4
  {
    if |vs| < 4 then []
    else [ChunkMeta(I32At(vs, 0), I32At(vs, 1), AsUint16(I16At(vs, 2)), AsUint16(I16At(vs, 3)))] + Metas(vs[4..])
  }

  /** Written chunk metas read back as themselves. */
  lemma MetasRoundTrip(ms: seq<ChunkMeta>)
    ensures KindsOf(MetaValues(ms)) == MetaLayout(|ms|)
    ensures Metas(MetaValues(ms)) == ms
  {
    MetasKinds(ms);
    MetasBack(ms);
  }

  lemma {:induction false} MetasKinds(ms: seq<ChunkMeta>)
    ensures KindsOf(MetaValues(ms)) == MetaLayout(|ms|)
  {
    if ms != [] {
      var four := [VInt(4, ms[0].x), VInt(4, ms[0].z), VInt(2, AsInt16(ms[0].primary)), VInt(2, AsInt16(ms[0].add))];
      MetasKinds(ms[1..]);
      KindsAppend(four, MetaValues(ms[1..]));
    }
  }

  lemma KindsAppend(a: seq<Value>, b: seq<Value>)
    ensures KindsOf(a + b) == KindsOf(a) + KindsOf(b)
  {
  }

  lemma {:induction false} MetasBack(ms: seq<ChunkMeta>)
    ensures Metas(MetaValues(ms)) == ms
  {
    if ms != [] {
      var vs := MetaValues(ms);
      MetasBack(ms[1..]);
      assert vs[4..] == MetaValues(ms[1..]);
    }
  }

  /** The zero `ChunkMeta`s a `make` of length `n` holds. */
  function ZeroMetas(n: nat): (ms: seq<ChunkMeta>)
    ensures |ms| == n && forall i :: 0 <= i < n ==> ms[i] == ChunkMeta(0, 0, 0, 0)
  {
    seq(n, _ => ChunkMeta(0, 0, 0, 0))
  }

  /** The fields of `n` explosion records. */
  function RecordLayout(n: nat): (ks: seq<Kind>)
    ensures ks == Repeat(KInt(1), 3 * n)
  {
    Repeat(KInt(1), 3 * n)
  }

  function RecordValues(bs: seq<BlockRecord>): (vs: seq<Value>)
    ensures |vs| == 3 * |bs| && Plain(vs)
  {
    if bs == [] then [] else [VInt(1, bs[0].x), VInt(1, bs[0].y), VInt(1, bs[0].z)] + RecordValues(bs[1..])
  }

  function Records(vs: seq<Value>): (bs: seq<BlockRecord>)
    ensures |bs| == |vs| / 3
  {
    if |vs| < 3 then [] else [BlockRecord(I8At(vs, 0), I8At(vs, 1), I8At(vs, 2))] + Records(vs[3..])
  }

  /** Written explosion records read back as themselves. */
  lemma {:induction false} RecordsRoundTrip(bs: seq<BlockRecord>)
    ensures KindsOf(RecordValues(bs)) == RecordLayout(|bs|)
    ensures Records(RecordValues(bs)) == bs
  {
    RecordsKinds(bs);
    RecordsBack(bs);
  }

  lemma {:induction false} RecordsKinds(bs: seq<BlockRecord>)
    ensures KindsOf(RecordValues(bs)) == RecordLayout(|bs|)
  {
    if bs != [] {
      var three := [VInt(1, bs[0].x), VInt(1, bs[0].y), VInt(1, bs[0].z)];
      RecordsKinds(bs[1..]);
      KindsAppend(three, RecordValues(bs[1..]));
      assert KindsOf(three) == [KInt(1), KInt(1), KInt(1)];
      assert RecordLayout(|bs|) == [KInt(1), KInt(1), KInt(1)] + RecordLayout(|bs| - 1);
    }
  }

  lemma {:induction false} RecordsBack(bs: seq<BlockRecord>)
    ensures Records(RecordValues(bs)) == bs
  {
    if bs != [] {
      var vs := RecordValues(bs);
      RecordsBack(bs[1..]);
      assert vs[3..] == RecordValues(bs[1..]);
    }
  }

  // ---------------------------------------------------------------------------
  // Reading and writing a whole packet.

  /** What `ReadFrom` leaves: the receiver, `(n, err)` as `rw.Result()` returns them, and the input left. */
  datatype ReadResult<P> = ReadResult(packet: P, n: int, err: Option<Error>, rest: seq<Byte>)

  function Result<P>(p: P, st: In): ReadResult<P>
  {
    ReadResult(p, st.rw.n, st.rw.err, st.rest)
  }

  /**
   * `Id.WriteTo`: the id byte through `binary.Write`, reporting one byte or the
   * destination's error; the `Must` hook records the report. The byte goes to
   * the destination whatever the ReadWriter holds.
   */
  function WriteId(o: Out, id: Byte): (r: Out)
    ensures o.rw.err.None? && !o.sink.broken ==> r == Out(RW(o.rw.n + 1, None), Sink(o.sink.out + [id], false))
    ensures o.sink.broken ==> r.sink == o.sink && r.rw.n == o.rw.n && r.rw.err.Some?
  {
    if o.sink.broken then Out(MustHook(o.rw, 0, Some(IoError("Id.WriteTo"))), o.sink)
    else Out(MustHook(o.rw, 1, None), Sink(o.sink.out + [id], false))
  }

  /**
   * A `WriteTo` from a fresh ReadWriter: the id, then the fields; field i's
   * metadata map, if any, is enumerated in orders[i].
   */
  function WritePacket(sink: Sink, id: Byte, fields: seq<Value>, orders: seq<seq<Byte>>): Out
    requires |orders| == |fields|
  {
    WriteFields(WriteId(Out(Fresh, sink), id), fields, orders)
  }

  /** A write that succeeded, put out id first and counted every byte it put out. */
  predicate Delivered(o: Out, id: Byte)
  {
    o.rw.err.None? && !o.sink.broken && o.rw.n == |o.sink.out| && o.sink.out != [] && o.sink.out[0] == id
  }

  /** On a healthy destination a packet is its id and its fields' bytes, all counted. */
  lemma WritePacketHealthy(sink: Sink, id: Byte, fields: seq<Value>, orders: seq<seq<Byte>>)
    requires |orders| == |fields| && !sink.broken && AllWritable(fields)
    ensures WritePacket(sink, id, fields, orders) ==
      Out(RW(1 + |FieldsBytes(fields, orders)|, None), Sink(sink.out + [id] + FieldsBytes(fields, orders), false))
  {
    WriteFieldsHealthy(Out(RW(1, None), Sink(sink.out + [id], false)), fields, orders);
  }

  /** On a failed destination nothing goes out, nothing is counted, and an error is reported. */
  lemma WritePacketBroken(sink: Sink, id: Byte, fields: seq<Value>, orders: seq<seq<Byte>>)
    requires |orders| == |fields| && sink.broken
    ensures var o := WritePacket(sink, id, fields, orders);
      o.sink == sink && o.rw.n == 0 && o.rw.err.Some?
  {
    WriteFieldsAfterError(WriteId(Out(Fresh, sink), id), fields, orders);
  }

  /** The bytes after the id, followed by whatever comes next. */
  lemma AfterId(id: Byte, a: seq<Byte>, b: seq<Byte>, tail: seq<Byte>)
    ensures ([] + [id] + (a + b))[1..] + tail == a + (b + tail)
  {
    assert ([] + [id] + (a + b))[1..] == a + b;
  }

  /**
   * The round trip of a packet read in one pass: what the write puts out
   * after the id reads back, field by field, as `ReadBacks` of the fields;
   * `fill` makes of those the packet `want`, leaving the tail unread.
   */
  lemma FlatRoundTrip<P>(id: Byte, layout: seq<Kind>, fields: seq<Value>, orders: seq<seq<Byte>>, tail: seq<Byte>,
                         fill: seq<Value> -> P, want: P)
    requires KindsOf(fields) == layout && |orders| == |fields| && AllValid(fields, orders)
    requires fill(ReadBacks(fields)) == want
    ensures var o := WritePacket(Sink([], false), id, fields, orders);
      Delivered(o, id) &&
      var s := ReadFields(layout, In(Fresh, o.sink.out[1..] + tail));
      Result(fill(s.value), s.st) == ReadResult(want, o.rw.n - 1, None, tail)
  {
    var bytes := FieldsBytes(fields, orders);
    AllValidWritable(fields, orders);
    WritePacketHealthy(Sink([], false), id, fields, orders);
    AfterId(id, bytes, [], tail);
    assert bytes + [] == bytes;
    FieldsRoundTrip(0, fields, orders, tail);
  }

  /**
   * From a fresh ReadWriter, `input` reads as the values `head` under the
   * layout `hl`, without error, and then as `run` under `rl`, ending in `st`.
   */
  predicate ReadsAs(input: seq<Byte>, hl: seq<Kind>, head: seq<Value>, rl: seq<Kind>, run: seq<Value>, st: In)
  {
    var h := ReadFields(hl, In(Fresh, input));
    h.value == head && h.st.rw.err == None && ReadFields(rl, h.st) == Step(run, st)
  }

  /**
   * The round trip of a packet read in two passes, a head and then a run
   * whose layout the head gives: the head reads back as `ReadBacks` of its
   * fields, and the run then reads back the same way.
   */
  lemma SplitRoundTrip(id: Byte, head: seq<Value>, run: seq<Value>, orders: seq<seq<Byte>>, tail: seq<Byte>,
                       hl: seq<Kind>, hv: seq<Value>, rl: seq<Kind>, rv: seq<Value>)
    requires |orders| == |head| + |run| && AllValid(head + run, orders)
    requires KindsOf(head) == hl && ReadBacks(head) == hv && KindsOf(run) == rl && ReadBacks(run) == rv
    ensures var o := WritePacket(Sink([], false), id, head + run, orders);
      Delivered(o, id) && ReadsAs(o.sink.out[1..] + tail, hl, hv, rl, rv, In(RW(o.rw.n - 1, None), tail))
  {
    var k := |head|;
    var ho, ro := orders[..k], orders[k..];
    SplitValid(head, run, orders);
    var hb := FieldsBytes(head, ho);
    var rb := FieldsBytes(run, ro);
    AllValidWritable(head + run, orders);
    WritePacketHealthy(Sink([], false), id, head + run, orders);
    AfterId(id, hb, rb, tail);
    FieldsRoundTrip(0, head, ho, rb + tail);
    FieldsRoundTrip(|hb|, run, ro, tail);
  }

  /** The fields of a head and a run, valid together, are valid apart and put out the bytes of each in turn. */
  lemma SplitValid(head: seq<Value>, run: seq<Value>, orders: seq<seq<Byte>>)
    requires |orders| == |head| + |run| && AllValid(head + run, orders)
    ensures var k := |head|;
      AllValid(head, orders[..k]) && AllValid(run, orders[k..]) &&
      FieldsBytes(head + run, orders) == FieldsBytes(head, orders[..k]) + FieldsBytes(run, orders[k..])
  {
    var k := |head|;
    var ho, ro := orders[..k], orders[k..];
    assert (head + run)[..k] == head && (head + run)[k..] == run;
    assert ho + ro == orders;
    AllValidSplit(head + run, orders, k);
    FieldsBytesAppend(head, run, ho, ro);
  }

  // ---------------------------------------------------------------------------
  // The id byte.

  /** `Id.ReadFrom`: the byte, the count `binary.Read` reports and the input left. */
  datatype IdRead = IdRead(id: Byte, n: int, err: Option<Error>, rest: seq<Byte>)

  /** `Id.ReadFrom`: one byte, or nothing and an error on an empty input. */
  function ReadId(input: seq<Byte>): (r: IdRead)
    ensures r.err.None? <==> input != []
    ensures r.err.None? ==> r.n == 1 && input == [r.id] + r.rest
    ensures r.err.Some? ==> r.n == 0 && r.rest == input
  {
    if input == [] then IdRead(0, 0, Some(IoError("Id.ReadFrom")), input)
    else IdRead(input[0], 1, None, input[1..])
  }

  /** Why `CheckPacketId` fails: the id expected and the one read. */
  datatype IdMismatch = IdMismatch(expected: Byte, input: Byte)

  /** `CheckPacketId`: an error exactly when the id read is not the one expected. */
  function CheckPacketId(expected: Byte, input: Byte): (r: Option<IdMismatch>)
    ensures r.None? <==> input == expected
    ensures r.Some? ==> r.value == IdMismatch(expected, input)
  {
    if input != expected then Some(IdMismatch(expected, input)) else None
  }

  /** The id of a delivered packet reads back as one byte that `CheckPacketId` accepts, leaving the fields. */
  lemma IdRoundTrip(o: Out, id: Byte, tail: seq<Byte>)
    requires Delivered(o, id)
    ensures ReadId(o.sink.out + tail) == IdRead(id, 1, None, o.sink.out[1..] + tail)
    ensures CheckPacketId(id, ReadId(o.sink.out + tail).id).None?
  {
    assert (o.sink.out + tail)[1..] == o.sink.out[1..] + tail;
  }

  // ---------------------------------------------------------------------------
  // The same on streams.

  /** `Id.ReadFrom` on a stream. */
  method ReadIdFrom(r: Reader) returns (id: Byte, n: int, err: Option<Error>)
    modifies r
    ensures IdRead(id, n, err, r.rest) == ReadId(old(r.rest))
  {
    if r.rest == [] {
      id, n, err := 0, 0, Some(IoError("Id.ReadFrom"));
    } else {
      id, n, err := r.rest[0], 1, None;
      r.rest := r.rest[1..];
    }
  }

  /** `rw.Must(id.WriteTo(w))`. */
  method WriteIdTo(rw: ReadWriter, w: Writer, id: Byte)
    modifies rw, w
    ensures Out(rw.State(), w.State()) == WriteId(Out(old(rw.State()), old(w.State())), id)
  {
    if w.broken {
      rw.Must(0, Some(IoError("Id.WriteTo")));
    } else {
      w.out := w.out + [id];
      rw.Must(1, None);
    }
  }

  /** A `ReadFrom` that reads one layout with a fresh ReadWriter. */
  method ReadLayoutFrom(layout: seq<Kind>, r: Reader) returns (vs: seq<Value>, n: int, err: Option<Error>)
    modifies r
    ensures Step(vs, In(RW(n, err), r.rest)) == ReadFields(layout, In(Fresh, old(r.rest)))
  {
    var rw := new ReadWriter();
    vs := ReadFieldsFrom(rw, layout, r);
    n, err := rw.Result();
  }

  /** A `WriteTo` with a fresh ReadWriter: the id, then the fields. */
  method WritePacketTo(id: Byte, fields: seq<Value>, w: Writer) returns (n: int, err: Option<Error>, ghost orders: seq<seq<Byte>>)
    modifies w
    ensures |orders| == |fields|
    ensures Out(RW(n, err), w.State()) == WritePacket(old(w.State()), id, fields, orders)
  {
    var rw := new ReadWriter();
    WriteIdTo(rw, w, id);
    orders := WriteFieldsTo(rw, w, fields);
    n, err := rw.Result();
  }

  // ---------------------------------------------------------------------------
  // The packets.

  /** `KeepAlive`, packet 0x00. */
  datatype KeepAlive = KeepAlive(randomId: Int32)
  {
    function Id(): Byte { 0x00 }

    /** The kinds `ReadFrom` reads, in order. */
    static function Layout(): seq<Kind> { [KInt(4)] }

    /** The fields `WriteTo` writes after the id, in order. */
    function Fields(): seq<Value> { [VInt(4, randomId)] }

    /** The receiver once `ReadFrom` has stored the values read. */
    function Fill(vs: seq<Value>): KeepAlive { KeepAlive(I32At(vs, 0)) }

    function ReadFrom(input: seq<Byte>): ReadResult<KeepAlive>
    {
      var s := ReadFields(Layout(), In(Fresh, input));
      Result(Fill(s.value), s.st)
    }

    function WriteTo(sink: Sink, orders: seq<seq<Byte>>): Out
      requires |orders| == |Fields()|
    {
      WritePacket(sink, Id(), Fields(), orders)
    }

    /**
     * `WriteTo` puts out the id and then bytes from which any receiver's
     * `ReadFrom` gets the packet back.
     */
    lemma RoundTrip(r: KeepAlive, orders: seq<seq<Byte>>, tail: seq<Byte>)
      requires |orders| == |Fields()| && AllValid(Fields(), orders)
      ensures var o := WriteTo(Sink([], false), orders);
        Delivered(o, Id()) && r.ReadFrom(o.sink.out[1..] + tail) == ReadResult(this, o.rw.n - 1, None, tail)
    {
      LayoutOfFields();
      ReadBackFill(r);
      FlatRoundTrip(Id(), Layout(), Fields(), orders, tail, r.Fill, this);
    }

    /**
     * On a healthy destination `WriteTo` appends 5 bytes and counts them:
     * the id 0x00 and then the random id as a 4-byte big-endian integer.
     */
    lemma FiveBytes(sink: Sink, orders: seq<seq<Byte>>)
      requires |orders| == |Fields()| && !sink.broken
      ensures var o := WriteTo(sink, orders);
        o.sink == Sink(sink.out + [0x00] + Encode(randomId, 4), false) && o.rw == RW(5, None) &&
        |o.sink.out| == |sink.out| + 5
    {
      FitsWidths(randomId);
      assert FieldsBytes(Fields(), orders) == Encode(randomId, 4);
      WritePacketHealthy(sink, Id(), Fields(), orders);
    }

    /** `WriteTo` writes the kinds `ReadFrom` reads. */
    lemma LayoutOfFields()
      ensures KindsOf(Fields()) == Layout()
    {
    }

    /** The values written, once read back, fill any receiver with the packet. */
    lemma ReadBackFill(r: KeepAlive)
      ensures r.Fill(ReadBacks(Fields())) == this
    {
    }
  }

  /** `LoginInfo`, packet 0x01. */
  datatype LoginInfo = LoginInfo(entity: Int32, levelType: string, gameMode: Int8, dimension: Int8, difficulty: Int8, maxPlayers: Int8)
  {
    function Id(): Byte { 0x01 }

    /** The kinds `ReadFrom` reads, in order. */
    static function Layout(): seq<Kind> { [KInt(4), KString, KInt(1), KInt(1), KInt(1), KInt(1), KInt(1)] }

    /** The fields `WriteTo` writes after the id, in order. */
    function Fields(): seq<Value> { [VInt(4, entity), VString(levelType), VInt(1, gameMode), VInt(1, dimension), VInt(1, difficulty), VInt(1, 0), VInt(1, maxPlayers)] }

    /** The receiver once `ReadFrom` has stored the values read. */
    function Fill(vs: seq<Value>): LoginInfo { LoginInfo(I32At(vs, 0), StrAt(vs, 1), I8At(vs, 2), I8At(vs, 3), I8At(vs, 4), I8At(vs, 6)) }

    function ReadFrom(input: seq<Byte>): ReadResult<LoginInfo>
    {
      var s := ReadFields(Layout(), In(Fresh, input));
      Result(Fill(s.value), s.st)
    }

    function WriteTo(sink: Sink, orders: seq<seq<Byte>>): Out
      requires |orders| == |Fields()|
    {
      WritePacket(sink, Id(), Fields(), orders)
    }

    /**
     * `WriteTo` puts out the id and then bytes from which any receiver's
     * `ReadFrom` gets the packet back. The byte the write puts at a fixed zero is read and dropped.
     */
    lemma RoundTrip(r: LoginInfo, orders: seq<seq<Byte>>, tail: seq<Byte>)
      requires |orders| == |Fields()| && AllValid(Fields(), orders)
      ensures var o := WriteTo(Sink([], false), orders);
        Delivered(o, Id()) && r.ReadFrom(o.sink.out[1..] + tail) == ReadResult(this, o.rw.n - 1, None, tail)
    {
      LayoutOfFields();
      ReadBackFill(r);
      FlatRoundTrip(Id(), Layout(), Fields(), orders, tail, r.Fill, this);
    }

    /** `WriteTo` writes the kinds `ReadFrom` reads. */
    lemma LayoutOfFields()
      ensures KindsOf(Fields()) == Layout()
    {
    }

    /** The values written, once read back, fill any receiver with the packet. */
    lemma ReadBackFill(r: LoginInfo)
      ensures r.Fill(ReadBacks(Fields())) == this
    {
    }
  }

  /** `Handshake`, packet 0x02. */
  datatype Handshake = Handshake(version: Int8, username: string, host: string, port: Int32)
  {
    function Id(): Byte { 0x02 }

    /** The kinds `ReadFrom` reads, in order. */
    static function Layout(): seq<Kind> { [KInt(1), KString, KString, KInt(4)] }

    /** The fields `WriteTo` writes after the id, in order. */
    function Fields(): seq<Value> { [VInt(1, version), VString(username), VString(host), VInt(4, port)] }

    /** The receiver once `ReadFrom` has stored the values read. */
    function Fill(vs: seq<Value>): Handshake { Handshake(I8At(vs, 0), StrAt(vs, 1), StrAt(vs, 2), I32At(vs, 3)) }

    function ReadFrom(input: seq<Byte>): ReadResult<Handshake>
    {
      var s := ReadFields(Layout(), In(Fresh, input));
      Result(Fill(s.value), s.st)
    }

    function WriteTo(sink: Sink, orders: seq<seq<Byte>>): Out
      requires |orders| == |Fields()|
    {
      WritePacket(sink, Id(), Fields(), orders)
    }

    /**
     * `WriteTo` puts out the id and then bytes from which any receiver's
     * `ReadFrom` gets the packet back.
     */
    lemma RoundTrip(r: Handshake, orders: seq<seq<Byte>>, tail: seq<Byte>)
      requires |orders| == |Fields()| && AllValid(Fields(), orders)
      ensures var o := WriteTo(Sink([], false), orders);
        Delivered(o, Id()) && r.ReadFrom(o.sink.out[1..] + tail) == ReadResult(this, o.rw.n - 1, None, tail)
    {
      LayoutOfFields();
      ReadBackFill(r);
      FlatRoundTrip(Id(), Layout(), Fields(), orders, tail, r.Fill, this);
    }

    /** `WriteTo` writes the kinds `ReadFrom` reads. */
    lemma LayoutOfFields()
      ensures KindsOf(Fields()) == Layout()
    {
    }

    /** The values written, once read back, fill any receiver with the packet. */
    lemma ReadBackFill(r: Handshake)
      ensures r.Fill(ReadBacks(Fields())) == this
    {
    }
  }

  /** `ChatMessage`, packet 0x03. */
  datatype ChatMessage = ChatMessage(message: string)
  {
    function Id(): Byte { 0x03 }

    /** The kinds `ReadFrom` reads, in order. */
    static function Layout(): seq<Kind> { [KString] }

    /** The fields `WriteTo` writes after the id, in order. */
    function Fields(): seq<Value> { [VString(message)] }

    /** The receiver once `ReadFrom` has stored the values read. */
    function Fill(vs: seq<Value>): ChatMessage { ChatMessage(StrAt(vs, 0)) }

    function ReadFrom(input: seq<Byte>): ReadResult<ChatMessage>
    {
      var s := ReadFields(Layout(), In(Fresh, input));
      Result(Fill(s.value), s.st)
    }

    function WriteTo(sink: Sink, orders: seq<seq<Byte>>): Out
      requires |orders| == |Fields()|
    {
      WritePacket(sink, Id(), Fields(), orders)
    }

    /**
     * `WriteTo` puts out the id and then bytes from which any receiver's
     * `ReadFrom` gets the packet back.
     */
    lemma RoundTrip(r: ChatMessage, orders: seq<seq<Byte>>, tail: seq<Byte>)
      requires |orders| == |Fields()| && AllValid(Fields(), orders)
      ensures var o := WriteTo(Sink([], false), orders);
        Delivered(o, Id()) && r.ReadFrom(o.sink.out[1..] + tail) == ReadResult(this, o.rw.n - 1, None, tail)
    {
      LayoutOfFields();
      ReadBackFill(r);
      FlatRoundTrip(Id(), Layout(), Fields(), orders, tail, r.Fill, this);
    }

    /** `WriteTo` writes the kinds `ReadFrom` reads. */
    lemma LayoutOfFields()
      ensures KindsOf(Fields()) == Layout()
    {
    }

    /** The values written, once read back, fill any receiver with the packet. */
    lemma ReadBackFill(r: ChatMessage)
      ensures r.Fill(ReadBacks(Fields())) == this
    {
    }
  }

  /** `TimeUpdate`, packet 0x04. */
  datatype TimeUpdate = TimeUpdate(worldAge: Int64, time: Int64)
  {
    function Id(): Byte { 0x04 }

    /** The kinds `ReadFrom` reads, in order. */
    static function Layout(): seq<Kind> { [KInt(8), KInt(8)] }

    /** The fields `WriteTo` writes after the id, in order. */
    function Fields(): seq<Value> { [VInt(8, worldAge), VInt(8, time)] }

    /** The receiver once `ReadFrom` has stored the values read. */
    function Fill(vs: seq<Value>): TimeUpdate { TimeUpdate(I64At(vs, 0), I64At(vs, 1)) }

    function ReadFrom(input: seq<Byte>): ReadResult<TimeUpdate>
    {
      var s := ReadFields(Layout(), In(Fresh, input));
      Result(Fill(s.value), s.st)
    }

    function WriteTo(sink: Sink, orders: seq<seq<Byte>>): Out
      requires |orders| == |Fields()|
    {
      WritePacket(sink, Id(), Fields(), orders)
    }

    /**
     * `WriteTo` puts out the id and then bytes from which any receiver's
     * `ReadFrom` gets the packet back.
     */
    lemma RoundTrip(r: TimeUpdate, orders: seq<seq<Byte>>, tail: seq<Byte>)
      requires |orders| == |Fields()| && AllValid(Fields(), orders)
      ensures var o := WriteTo(Sink([], false), orders);
        Delivered(o, Id()) && r.ReadFrom(o.sink.out[1..] + tail) == ReadResult(this, o.rw.n - 1, None, tail)
    {
      LayoutOfFields();
      ReadBackFill(r);
      FlatRoundTrip(Id(), Layout(), Fields(), orders, tail, r.Fill, this);
    }

    /** `WriteTo` writes the kinds `ReadFrom` reads. */
    lemma LayoutOfFields()
      ensures KindsOf(Fields()) == Layout()
    {
    }

    /** The values written, once read back, fill any receiver with the packet. */
    lemma ReadBackFill(r: TimeUpdate)
      ensures r.Fill(ReadBacks(Fields())) == this
    {
    }
  }

  /** `EntityEquipment`, packet 0x05. */
  datatype EntityEquipment = EntityEquipment(entity: Int32, slot: Int16, item: Option<Slots.Slot>)
  {
    function Id(): Byte { 0x05 }

    /** The kinds `ReadFrom` reads, in order. */
    static function Layout(): seq<Kind> { [KInt(4), KInt(2)] }

    /** The fields `WriteTo` writes after the id, in order. */
    function Fields(): seq<Value> { [VInt(4, entity), VInt(2, slot)] }

    /** The receiver once `ReadFrom` has stored the values read. */
    function Fill(vs: seq<Value>): EntityEquipment { EntityEquipment(I32At(vs, 0), I16At(vs, 1), item) }

    function ReadFrom(input: seq<Byte>): ReadResult<EntityEquipment>
    {
      var s := ReadFields(Layout(), In(Fresh, input));
      Result(Fill(s.value), s.st)
    }

    function WriteTo(sink: Sink, orders: seq<seq<Byte>>): Out
      requires |orders| == |Fields()|
    {
      WritePacket(sink, Id(), Fields(), orders)
    }

    /**
     * `WriteTo` puts out the id and then bytes from which any receiver's
     * `ReadFrom` gets the packet back, except that the receiver keeps its own `Item`, which is neither written nor read.
     */
    lemma RoundTrip(r: EntityEquipment, orders: seq<seq<Byte>>, tail: seq<Byte>)
      requires |orders| == |Fields()| && AllValid(Fields(), orders)
      ensures var o := WriteTo(Sink([], false), orders);
        Delivered(o, Id()) && r.ReadFrom(o.sink.out[1..] + tail) == ReadResult(this.(item := r.item), o.rw.n - 1, None, tail)
    {
      LayoutOfFields();
      ReadBackFill(r);
      FlatRoundTrip(Id(), Layout(), Fields(), orders, tail, r.Fill, this.(item := r.item));
    }

    /** `WriteTo` writes the kinds `ReadFrom` reads. */
    lemma LayoutOfFields()
      ensures KindsOf(Fields()) == Layout()
    {
    }

    /** The values written, once read back, fill any receiver with the packet, except that the receiver keeps its own `Item`, which is neither written nor read. */
    lemma ReadBackFill(r: EntityEquipment)
      ensures r.Fill(ReadBacks(Fields())) == this.(item := r.item)
    {
    }
  }

  /** `SpawnPosition`, packet 0x06. */
  datatype SpawnPosition = SpawnPosition(x: Int32, y: Int32, z: Int32)
  {
    function Id(): Byte { 0x06 }

    /** The kinds `ReadFrom` reads, in order. */
    static function Layout(): seq<Kind> { [KInt(4), KInt(4), KInt(4)] }

    /** The fields `WriteTo` writes after the id, in order. */
    function Fields(): seq<Value> { [VInt(4, x), VInt(4, y), VInt(4, z)] }

    /** The receiver once `ReadFrom` has stored the values read. */
    function Fill(vs: seq<Value>): SpawnPosition { SpawnPosition(I32At(vs, 0), I32At(vs, 1), I32At(vs, 2)) }

    function ReadFrom(input: seq<Byte>): ReadResult<SpawnPosition>
    {
      var s := ReadFields(Layout(), In(Fresh, input));
      Result(Fill(s.value), s.st)
    }

    function WriteTo(sink: Sink, orders: seq<seq<Byte>>): Out
      requires |orders| == |Fields()|
    {
      WritePacket(sink, Id(), Fields(), orders)
    }

    /**
     * `WriteTo` puts out the id and then bytes from which any receiver's
     * `ReadFrom` gets the packet back.
     */
    lemma RoundTrip(r: SpawnPosition, orders: seq<seq<Byte>>, tail: seq<Byte>)
      requires |orders| == |Fields()| && AllValid(Fields(), orders)
      ensures var o := WriteTo(Sink([], false), orders);
        Delivered(o, Id()) && r.ReadFrom(o.sink.out[1..] + tail) == ReadResult(this, o.rw.n - 1, None, tail)
    {
      LayoutOfFields();
      ReadBackFill(r);
      FlatRoundTrip(Id(), Layout(), Fields(), orders, tail, r.Fill, this);
    }

    /** `WriteTo` writes the kinds `ReadFrom` reads. */
    lemma LayoutOfFields()
      ensures KindsOf(Fields()) == Layout()
    {
    }

    /** The values written, once read back, fill any receiver with the packet. */
    lemma ReadBackFill(r: SpawnPosition)
      ensures r.Fill(ReadBacks(Fields())) == this
    {
    }
  }

  /** `EntityInteract`, packet 0x07. */
  datatype EntityInteract = EntityInteract(from: Int32, to: Int32, mouseButton: bool)
  {
    function Id(): Byte { 0x07 }

    /** The kinds `ReadFrom` reads, in order. */
    static function Layout(): seq<Kind> { [KInt(4), KInt(4), KBool] }

    /** The fields `WriteTo` writes after the id, in order. */
    function Fields(): seq<Value> { [VInt(4, from), VInt(4, to), VBool(mouseButton)] }

    /** The receiver once `ReadFrom` has stored the values read. */
    function Fill(vs: seq<Value>): EntityInteract { EntityInteract(I32At(vs, 0), I32At(vs, 1), BoolAt(vs, 2)) }

    function ReadFrom(input: seq<Byte>): ReadResult<EntityInteract>
    {
      var s := ReadFields(Layout(), In(Fresh, input));
      Result(Fill(s.value), s.st)
    }

    function WriteTo(sink: Sink, orders: seq<seq<Byte>>): Out
      requires |orders| == |Fields()|
    {
      WritePacket(sink, Id(), Fields(), orders)
    }

    /**
     * `WriteTo` puts out the id and then bytes from which any receiver's
     * `ReadFrom` gets the packet back.
     */
    lemma RoundTrip(r: EntityInteract, orders: seq<seq<Byte>>, tail: seq<Byte>)
      requires |orders| == |Fields()| && AllValid(Fields(), orders)
      ensures var o := WriteTo(Sink([], false), orders);
        Delivered(o, Id()) && r.ReadFrom(o.sink.out[1..] + tail) == ReadResult(this, o.rw.n - 1, None, tail)
    {
      LayoutOfFields();
      ReadBackFill(r);
      FlatRoundTrip(Id(), Layout(), Fields(), orders, tail, r.Fill, this);
    }

    /** `WriteTo` writes the kinds `ReadFrom` reads. */
    lemma LayoutOfFields()
      ensures KindsOf(Fields()) == Layout()
    {
    }

    /** The values written, once read back, fill any receiver with the packet. */
    lemma ReadBackFill(r: EntityInteract)
      ensures r.Fill(ReadBacks(Fields())) == this
    {
    }
  }

  /** `HealthUpdate`, packet 0x08. */
  datatype HealthUpdate = HealthUpdate(health: Int16, food: Int16, saturation: Float32Bits)
  {
    function Id(): Byte { 0x08 }

    /** The kinds `ReadFrom` reads, in order. */
    static function Layout(): seq<Kind> { [KInt(2), KInt(2), KFloat(4)] }

    /** The fields `WriteTo` writes after the id, in order. */
    function Fields(): seq<Value> { [VInt(2, health), VInt(2, food), VFloat(4, saturation)] }

    /** The receiver once `ReadFrom` has stored the values read. */
    function Fill(vs: seq<Value>): HealthUpdate { HealthUpdate(I16At(vs, 0), I16At(vs, 1), F32At(vs, 2)) }

    function ReadFrom(input: seq<Byte>): ReadResult<HealthUpdate>
    {
      var s := ReadFields(Layout(), In(Fresh, input));
      Result(Fill(s.value), s.st)
    }

    function WriteTo(sink: Sink, orders: seq<seq<Byte>>): Out
      requires |orders| == |Fields()|
    {
      WritePacket(sink, Id(), Fields(), orders)
    }

    /**
     * `WriteTo` puts out the id and then bytes from which any receiver's
     * `ReadFrom` gets the packet back.
     */
    lemma RoundTrip(r: HealthUpdate, orders: seq<seq<Byte>>, tail: seq<Byte>)
      requires |orders| == |Fields()| && AllValid(Fields(), orders)
      ensures var o := WriteTo(Sink([], false), orders);
        Delivered(o, Id()) && r.ReadFrom(o.sink.out[1..] + tail) == ReadResult(this, o.rw.n - 1, None, tail)
    {
      LayoutOfFields();
      ReadBackFill(r);
      FlatRoundTrip(Id(), Layout(), Fields(), orders, tail, r.Fill, this);
    }

    /** `WriteTo` writes the kinds `ReadFrom` reads. */
    lemma LayoutOfFields()
      ensures KindsOf(Fields()) == Layout()
    {
    }

    /** The values written, once read back, fill any receiver with the packet. */
    lemma ReadBackFill(r: HealthUpdate)
      ensures r.Fill(ReadBacks(Fields())) == this
    {
    }
  }

  /** `Respawn`, packet 0x09. */
  datatype Respawn = Respawn(dimension: Int32, difficulty: Int8, gameMode: Int8, worldHeight: Int16, levelType: string)
  {
    function Id(): Byte { 0x09 }

    /** The kinds `ReadFrom` reads, in order. */
    static function Layout(): seq<Kind> { [KInt(4), KInt(1), KInt(1), KInt(2), KString] }

    /** The fields `WriteTo` writes after the id, in order. */
    function Fields(): seq<Value> { [VInt(4, dimension), VInt(1, difficulty), VInt(1, gameMode), VInt(2, worldHeight), VString(levelType)] }

    /** The receiver once `ReadFrom` has stored the values read. */
    function Fill(vs: seq<Value>): Respawn { Respawn(I32At(vs, 0), I8At(vs, 1), I8At(vs, 2), I16At(vs, 3), StrAt(vs, 4)) }

    function ReadFrom(input: seq<Byte>): ReadResult<Respawn>
    {
      var s := ReadFields(Layout(), In(Fresh, input));
      Result(Fill(s.value), s.st)
    }

    function WriteTo(sink: Sink, orders: seq<seq<Byte>>): Out
      requires |orders| == |Fields()|
    {
      WritePacket(sink, Id(), Fields(), orders)
    }

    /**
     * `WriteTo` puts out the id and then bytes from which any receiver's
     * `ReadFrom` gets the packet back.
     */
    lemma RoundTrip(r: Respawn, orders: seq<seq<Byte>>, tail: seq<Byte>)
      requires |orders| == |Fields()| && AllValid(Fields(), orders)
      ensures var o := WriteTo(Sink([], false), orders);
        Delivered(o, Id()) && r.ReadFrom(o.sink.out[1..] + tail) == ReadResult(this, o.rw.n - 1, None, tail)
    {
      LayoutOfFields();
      ReadBackFill(r);
      FlatRoundTrip(Id(), Layout(), Fields(), orders, tail, r.Fill, this);
    }

    /** `WriteTo` writes the kinds `ReadFrom` reads. */
    lemma LayoutOfFields()
      ensures KindsOf(Fields()) == Layout()
    {
    }

    /** The values written, once read back, fill any receiver with the packet. */
    lemma ReadBackFill(r: Respawn)
      ensures r.Fill(ReadBacks(Fields())) == this
    {
    }
  }

  /** `Player`, packet 0x0A. */
  datatype Player = Player(onGround: bool)
  {
    function Id(): Byte { 0x0A }

    /** The kinds `ReadFrom` reads, in order. */
    static function Layout(): seq<Kind> { [KBool] }

    /** The fields `WriteTo` writes after the id, in order. */
    function Fields(): seq<Value> { [VBool(onGround)] }

    /** The receiver once `ReadFrom` has stored the values read. */
    function Fill(vs: seq<Value>): Player { Player(BoolAt(vs, 0)) }

    function ReadFrom(input: seq<Byte>): ReadResult<Player>
    {
      var s := ReadFields(Layout(), In(Fresh, input));
      Result(Fill(s.value), s.st)
    }

    function WriteTo(sink: Sink, orders: seq<seq<Byte>>): Out
      requires |orders| == |Fields()|
    {
      WritePacket(sink, Id(), Fields(), orders)
    }

    /**
     * `WriteTo` puts out the id and then bytes from which any receiver's
     * `ReadFrom` gets the packet back.
     */
    lemma RoundTrip(r: Player, orders: seq<seq<Byte>>, tail: seq<Byte>)
      requires |orders| == |Fields()| && AllValid(Fields(), orders)
      ensures var o := WriteTo(Sink([], false), orders);
        Delivered(o, Id()) && r.ReadFrom(o.sink.out[1..] + tail) == ReadResult(this, o.rw.n - 1, None, tail)
    {
      LayoutOfFields();
      ReadBackFill(r);
      FlatRoundTrip(Id(), Layout(), Fields(), orders, tail, r.Fill, this);
    }

    /** `WriteTo` writes the kinds `ReadFrom` reads. */
    lemma LayoutOfFields()
      ensures KindsOf(Fields()) == Layout()
    {
    }

    /** The values written, once read back, fill any receiver with the packet. */
    lemma ReadBackFill(r: Player)
      ensures r.Fill(ReadBacks(Fields())) == this
    {
    }
  }

  /** `PlayerPos`, packet 0x0B. */
  datatype PlayerPos = PlayerPos(x: Float64Bits, y: Float64Bits, z: Float64Bits, stance: Float64Bits, onGround: bool)
  {
    function Id(): Byte { 0x0B }

    /** The kinds `ReadFrom` reads, in order. */
    static function Layout(): seq<Kind> { [KFloat(8), KFloat(8), KFloat(8), KFloat(8), KBool] }

    /** The fields `WriteTo` writes after the id, in order. */
    function Fields(): seq<Value> { [VFloat(8, x), VFloat(8, y), VFloat(8, stance), VFloat(8, z), VBool(onGround)] }

    /** The receiver once `ReadFrom` has stored the values read. */
    function Fill(vs: seq<Value>): PlayerPos { PlayerPos(F64At(vs, 0), F64At(vs, 1), F64At(vs, 3), F64At(vs, 2), BoolAt(vs, 4)) }

    function ReadFrom(input: seq<Byte>): ReadResult<PlayerPos>
    {
      var s := ReadFields(Layout(), In(Fresh, input));
      Result(Fill(s.value), s.st)
    }

    function WriteTo(sink: Sink, orders: seq<seq<Byte>>): Out
      requires |orders| == |Fields()|
    {
      WritePacket(sink, Id(), Fields(), orders)
    }

    /**
     * `WriteTo` puts out the id and then bytes from which any receiver's
     * `ReadFrom` gets the packet back.
     */
    lemma RoundTrip(r: PlayerPos, orders: seq<seq<Byte>>, tail: seq<Byte>)
      requires |orders| == |Fields()| && AllValid(Fields(), orders)
      ensures var o := WriteTo(Sink([], false), orders);
        Delivered(o, Id()) && r.ReadFrom(o.sink.out[1..] + tail) == ReadResult(this, o.rw.n - 1, None, tail)
    {
      LayoutOfFields();
      ReadBackFill(r);
      FlatRoundTrip(Id(), Layout(), Fields(), orders, tail, r.Fill, this);
    }

    /** `WriteTo` writes the kinds `ReadFrom` reads. */
    lemma LayoutOfFields()
      ensures KindsOf(Fields()) == Layout()
    {
    }

    /** The values written, once read back, fill any receiver with the packet. */
    lemma ReadBackFill(r: PlayerPos)
      ensures r.Fill(ReadBacks(Fields())) == this
    {
    }
  }

  /** `PlayerLook`, packet 0x0C. */
  datatype PlayerLook = PlayerLook(yaw: Float32Bits, pitch: Float32Bits, onGround: bool)
  {
    function Id(): Byte { 0x0C }

    /** The kinds `ReadFrom` reads, in order. */
    static function Layout(): seq<Kind> { [KFloat(4), KFloat(4), KBool] }

    /** The fields `WriteTo` writes after the id, in order. */
    function Fields(): seq<Value> { [VFloat(4, yaw), VFloat(4, pitch), VBool(onGround)] }

    /** The receiver once `ReadFrom` has stored the values read. */
    function Fill(vs: seq<Value>): PlayerLook { PlayerLook(F32At(vs, 0), F32At(vs, 1), BoolAt(vs, 2)) }

    function ReadFrom(input: seq<Byte>): ReadResult<PlayerLook>
    {
      var s := ReadFields(Layout(), In(Fresh, input));
      Result(Fill(s.value), s.st)
    }

    function WriteTo(sink: Sink, orders: seq<seq<Byte>>): Out
      requires |orders| == |Fields()|
    {
      WritePacket(sink, Id(), Fields(), orders)
    }

    /**
     * `WriteTo` puts out the id and then bytes from which any receiver's
     * `ReadFrom` gets the packet back.
     */
    lemma RoundTrip(r: PlayerLook, orders: seq<seq<Byte>>, tail: seq<Byte>)
      requires |orders| == |Fields()| && AllValid(Fields(), orders)
      ensures var o := WriteTo(Sink([], false), orders);
        Delivered(o, Id()) && r.ReadFrom(o.sink.out[1..] + tail) == ReadResult(this, o.rw.n - 1, None, tail)
    {
      LayoutOfFields();
      ReadBackFill(r);
      FlatRoundTrip(Id(), Layout(), Fields(), orders, tail, r.Fill, this);
    }

    /** `WriteTo` writes the kinds `ReadFrom` reads. */
    lemma LayoutOfFields()
      ensures KindsOf(Fields()) == Layout()
    {
    }

    /** The values written, once read back, fill any receiver with the packet. */
    lemma ReadBackFill(r: PlayerLook)
      ensures r.Fill(ReadBacks(Fields())) == this
    {
    }
  }

  /** `PlayerPosLook`, packet 0x0D. */
  datatype PlayerPosLook = PlayerPosLook(x: Float64Bits, y: Float64Bits, z: Float64Bits, stance: Float64Bits, yaw: Float32Bits, pitch: Float32Bits, onGround: bool)
  {
    function Id(): Byte { 0x0D }

    /** The kinds `ReadFrom` reads, in order. */
    static function Layout(): seq<Kind> { [KFloat(8), KFloat(8), KFloat(8), KFloat(8), KFloat(4), KFloat(4), KBool] }

    /** The fields `WriteTo` writes after the id, in order. */
    function Fields(): seq<Value> { [VFloat(8, x), VFloat(8, stance), VFloat(8, y), VFloat(8, z), VFloat(4, yaw), VFloat(4, pitch), VBool(onGround)] }

    /** The receiver once `ReadFrom` has stored the values read. */
    function Fill(vs: seq<Value>): PlayerPosLook { PlayerPosLook(F64At(vs, 0), F64At(vs, 1), F64At(vs, 3), F64At(vs, 2), F32At(vs, 4), F32At(vs, 5), BoolAt(vs, 6)) }

    function ReadFrom(input: seq<Byte>): ReadResult<PlayerPosLook>
    {
      var s := ReadFields(Layout(), In(Fresh, input));
      Result(Fill(s.value), s.st)
    }

    function WriteTo(sink: Sink, orders: seq<seq<Byte>>): Out
      requires |orders| == |Fields()|
    {
      WritePacket(sink, Id(), Fields(), orders)
    }

    /**
     * `WriteTo` puts out the id and then bytes from which any receiver's
     * `ReadFrom` gets the packet back, except that Y and Stance come back swapped: the write switches them and the read does not.
     */
    lemma RoundTrip(r: PlayerPosLook, orders: seq<seq<Byte>>, tail: seq<Byte>)
      requires |orders| == |Fields()| && AllValid(Fields(), orders)
      ensures var o := WriteTo(Sink([], false), orders);
        Delivered(o, Id()) && r.ReadFrom(o.sink.out[1..] + tail) == ReadResult(this.(y := stance, stance := y), o.rw.n - 1, None, tail)
    {
      LayoutOfFields();
      ReadBackFill(r);
      FlatRoundTrip(Id(), Layout(), Fields(), orders, tail, r.Fill, this.(y := stance, stance := y));
    }

    /** `WriteTo` writes the kinds `ReadFrom` reads. */
    lemma LayoutOfFields()
      ensures KindsOf(Fields()) == Layout()
    {
    }

    /** The values written, once read back, fill any receiver with the packet, except that Y and Stance come back swapped: the write switches them and the read does not. */
    lemma ReadBackFill(r: PlayerPosLook)
      ensures r.Fill(ReadBacks(Fields())) == this.(y := stance, stance := y)
    {
    }
  }

  /** `PlayerAction`, packet 0x0E. */
  datatype PlayerAction = PlayerAction(action: Int8, x: Int32, y: Int8, z: Int32, face: Int8)
  {
    function Id(): Byte { 0x0E }

    /** The kinds `ReadFrom` reads, in order. */
    static function Layout(): seq<Kind> { [KInt(1), KInt(4), KInt(1), KInt(4), KInt(1)] }

    /** The fields `WriteTo` writes after the id, in order. */
    function Fields(): seq<Value> { [VInt(1, action), VInt(4, x), VInt(1, y), VInt(4, z), VInt(1, face)] }

    /** The receiver once `ReadFrom` has stored the values read. */
    function Fill(vs: seq<Value>): PlayerAction { PlayerAction(I8At(vs, 0), I32At(vs, 1), I8At(vs, 2), I32At(vs, 3), I8At(vs, 4)) }

    function ReadFrom(input: seq<Byte>): ReadResult<PlayerAction>
    {
      var s := ReadFields(Layout(), In(Fresh, input));
      Result(Fill(s.value), s.st)
    }

    function WriteTo(sink: Sink, orders: seq<seq<Byte>>): Out
      requires |orders| == |Fields()|
    {
      WritePacket(sink, Id(), Fields(), orders)
    }

    /**
     * `WriteTo` puts out the id and then bytes from which any receiver's
     * `ReadFrom` gets the packet back.
     */
    lemma RoundTrip(r: PlayerAction, orders: seq<seq<Byte>>, tail: seq<Byte>)
      requires |orders| == |Fields()| && AllValid(Fields(), orders)
      ensures var o := WriteTo(Sink([], false), orders);
        Delivered(o, Id()) && r.ReadFrom(o.sink.out[1..] + tail) == ReadResult(this, o.rw.n - 1, None, tail)
    {
      LayoutOfFields();
      ReadBackFill(r);
      FlatRoundTrip(Id(), Layout(), Fields(), orders, tail, r.Fill, this);
    }

    /** `WriteTo` writes the kinds `ReadFrom` reads. */
    lemma LayoutOfFields()
      ensures KindsOf(Fields()) == Layout()
    {
    }

    /** The values written, once read back, fill any receiver with the packet. */
    lemma ReadBackFill(r: PlayerAction)
      ensures r.Fill(ReadBacks(Fields())) == this
    {
    }
  }

  /** `PlayerBlockPlace`, packet 0x0F. */
  datatype PlayerBlockPlace = PlayerBlockPlace(x: Int32, y: Byte, z: Int32, direction: Int8, heldItem: Option<Slots.Slot>, chX: Int8, chY: Int8, chZ: Int8)
  {
    function Id(): Byte { 0x0F }

    /** The kinds `ReadFrom` reads, in order. */
    static function Layout(): seq<Kind> { [KInt(4), KInt(1), KInt(4), KInt(1), KSlot, KInt(1), KInt(1), KInt(1)] }

    /** The fields `WriteTo` writes after the id, in order. */
    function Fields(): seq<Value> { [VInt(4, x), VInt(1, AsInt8(y)), VInt(4, z), VInt(1, direction), VSlot(heldItem), VInt(1, chX), VInt(1, chY), VInt(1, chZ)] }

    /** The receiver once `ReadFrom` has stored the values read. */
    function Fill(vs: seq<Value>): PlayerBlockPlace { PlayerBlockPlace(I32At(vs, 0), AsByte(I8At(vs, 1)), I32At(vs, 2), I8At(vs, 3), SlotAt(vs, 4), I8At(vs, 5), I8At(vs, 6), I8At(vs, 7)) }

    function ReadFrom(input: seq<Byte>): ReadResult<PlayerBlockPlace>
    {
      var s := ReadFields(Layout(), In(Fresh, input));
      Result(Fill(s.value), s.st)
    }

    function WriteTo(sink: Sink, orders: seq<seq<Byte>>): Out
      requires |orders| == |Fields()|
    {
      WritePacket(sink, Id(), Fields(), orders)
    }

    /**
     * `WriteTo` puts out the id and then bytes from which any receiver's
     * `ReadFrom` gets the packet back, except that an empty `HeldItem` slot comes back as `NewSlot`.
     */
    lemma RoundTrip(r: PlayerBlockPlace, orders: seq<seq<Byte>>, tail: seq<Byte>)
      requires |orders| == |Fields()| && AllValid(Fields(), orders)
      ensures var o := WriteTo(Sink([], false), orders);
        Delivered(o, Id()) && r.ReadFrom(o.sink.out[1..] + tail) == ReadResult(this.(heldItem := ReadBackSlot(heldItem)), o.rw.n - 1, None, tail)
    {
      LayoutOfFields();
      ReadBackFill(r);
      FlatRoundTrip(Id(), Layout(), Fields(), orders, tail, r.Fill, this.(heldItem := ReadBackSlot(heldItem)));
    }

    /** `WriteTo` writes the kinds `ReadFrom` reads. */
    lemma LayoutOfFields()
      ensures KindsOf(Fields()) == Layout()
    {
    }

    /** The values written, once read back, fill any receiver with the packet, except that an empty `HeldItem` slot comes back as `NewSlot`. */
    lemma ReadBackFill(r: PlayerBlockPlace)
      ensures r.Fill(ReadBacks(Fields())) == this.(heldItem := ReadBackSlot(heldItem))
    {
    }
  }

  /** `ItemHeldChange`, packet 0x10. */
  datatype ItemHeldChange = ItemHeldChange(slotId: Int16)
  {
    function Id(): Byte { 0x10 }

    /** The kinds `ReadFrom` reads, in order. */
    static function Layout(): seq<Kind> { [KInt(2)] }

    /** The fields `WriteTo` writes after the id, in order. */
    function Fields(): seq<Value> { [VInt(2, slotId)] }

    /** The receiver once `ReadFrom` has stored the values read. */
    function Fill(vs: seq<Value>): ItemHeldChange { ItemHeldChange(I16At(vs, 0)) }

    function ReadFrom(input: seq<Byte>): ReadResult<ItemHeldChange>
    {
      var s := ReadFields(Layout(), In(Fresh, input));
      Result(Fill(s.value), s.st)
    }

    function WriteTo(sink: Sink, orders: seq<seq<Byte>>): Out
      requires |orders| == |Fields()|
    {
      WritePacket(sink, Id(), Fields(), orders)
    }

    /**
     * `WriteTo` puts out the id and then bytes from which any receiver's
     * `ReadFrom` gets the packet back.
     */
    lemma RoundTrip(r: ItemHeldChange, orders: seq<seq<Byte>>, tail: seq<Byte>)
      requires |orders| == |Fields()| && AllValid(Fields(), orders)
      ensures var o := WriteTo(Sink([], false), orders);
        Delivered(o, Id()) && r.ReadFrom(o.sink.out[1..] + tail) == ReadResult(this, o.rw.n - 1, None, tail)
    {
      LayoutOfFields();
      ReadBackFill(r);
      FlatRoundTrip(Id(), Layout(), Fields(), orders, tail, r.Fill, this);
    }

    /** `WriteTo` writes the kinds `ReadFrom` reads. */
    lemma LayoutOfFields()
      ensures KindsOf(Fields()) == Layout()
    {
    }

    /** The values written, once read back, fill any receiver with the packet. */
    lemma ReadBackFill(r: ItemHeldChange)
      ensures r.Fill(ReadBacks(Fields())) == this
    {
    }
  }

  /** `BedUse`, packet 0x11. */
  datatype BedUse = BedUse(entity: Int32, x: Int32, y: Int8, z: Int32)
  {
    function Id(): Byte { 0x11 }

    /** The kinds `ReadFrom` reads, in order. */
    static function Layout(): seq<Kind> { [KInt(4), KInt(1), KInt(4), KInt(1), KInt(4)] }

    /** The fields `WriteTo` writes after the id, in order. */
    function Fields(): seq<Value> { [VInt(4, entity), VInt(1, 0), VInt(4, x), VInt(1, y), VInt(4, z)] }

    /** The receiver once `ReadFrom` has stored the values read. */
    function Fill(vs: seq<Value>): BedUse { BedUse(I32At(vs, 0), I32At(vs, 2), I8At(vs, 3), I32At(vs, 4)) }

    function ReadFrom(input: seq<Byte>): ReadResult<BedUse>
    {
      var s := ReadFields(Layout(), In(Fresh, input));
      Result(Fill(s.value), s.st)
    }

    function WriteTo(sink: Sink, orders: seq<seq<Byte>>): Out
      requires |orders| == |Fields()|
    {
      WritePacket(sink, Id(), Fields(), orders)
    }

    /**
     * `WriteTo` puts out the id and then bytes from which any receiver's
     * `ReadFrom` gets the packet back. The byte the write puts at a fixed zero is read and dropped.
     */
    lemma RoundTrip(r: BedUse, orders: seq<seq<Byte>>, tail: seq<Byte>)
      requires |orders| == |Fields()| && AllValid(Fields(), orders)
      ensures var o := WriteTo(Sink([], false), orders);
        Delivered(o, Id()) && r.ReadFrom(o.sink.out[1..] + tail) == ReadResult(this, o.rw.n - 1, None, tail)
    {
      LayoutOfFields();
      ReadBackFill(r);
      FlatRoundTrip(Id(), Layout(), Fields(), orders, tail, r.Fill, this);
    }

    /** `WriteTo` writes the kinds `ReadFrom` reads. */
    lemma LayoutOfFields()
      ensures KindsOf(Fields()) == Layout()
    {
    }

    /** The values written, once read back, fill any receiver with the packet. */
    lemma ReadBackFill(r: BedUse)
      ensures r.Fill(ReadBacks(Fields())) == this
    {
    }
  }

  /** `Animation`, packet 0x12. */
  datatype Animation = Animation(entity: Int32, animation: Int8)
  {
    function Id(): Byte { 0x12 }

    /** The kinds `ReadFrom` reads, in order. */
    static function Layout(): seq<Kind> { [KInt(4), KInt(1)] }

    /** The fields `WriteTo` writes after the id, in order. */
    function Fields(): seq<Value> { [VInt(4, entity), VInt(1, animation)] }

    /** The receiver once `ReadFrom` has stored the values read. */
    function Fill(vs: seq<Value>): Animation { Animation(I32At(vs, 0), I8At(vs, 1)) }

    function ReadFrom(input: seq<Byte>): ReadResult<Animation>
    {
      var s := ReadFields(Layout(), In(Fresh, input));
      Result(Fill(s.value), s.st)
    }

    function WriteTo(sink: Sink, orders: seq<seq<Byte>>): Out
      requires |orders| == |Fields()|
    {
      WritePacket(sink, Id(), Fields(), orders)
    }

    /**
     * `WriteTo` puts out the id and then bytes from which any receiver's
     * `ReadFrom` gets the packet back.
     */
    lemma RoundTrip(r: Animation, orders: seq<seq<Byte>>, tail: seq<Byte>)
      requires |orders| == |Fields()| && AllValid(Fields(), orders)
      ensures var o := WriteTo(Sink([], false), orders);
        Delivered(o, Id()) && r.ReadFrom(o.sink.out[1..] + tail) == ReadResult(this, o.rw.n - 1, None, tail)
    {
      LayoutOfFields();
      ReadBackFill(r);
      FlatRoundTrip(Id(), Layout(), Fields(), orders, tail, r.Fill, this);
    }

    /** `WriteTo` writes the kinds `ReadFrom` reads. */
    lemma LayoutOfFields()
      ensures KindsOf(Fields()) == Layout()
    {
    }

    /** The values written, once read back, fill any receiver with the packet. */
    lemma ReadBackFill(r: Animation)
      ensures r.Fill(ReadBacks(Fields())) == this
    {
    }
  }

  /** `EntityAction`, packet 0x13. */
  datatype EntityAction = EntityAction(entity: Int32, action: Int8)
  {
    function Id(): Byte { 0x13 }

    /** The kinds `ReadFrom` reads, in order. */
    static function Layout(): seq<Kind> { [KInt(4), KInt(1)] }

    /** The fields `WriteTo` writes after the id, in order. */
    function Fields(): seq<Value> { [VInt(4, entity), VInt(1, action)] }

    /** The receiver once `ReadFrom` has stored the values read. */
    function Fill(vs: seq<Value>): EntityAction { EntityAction(I32At(vs, 0), I8At(vs, 1)) }

    function ReadFrom(input: seq<Byte>): ReadResult<EntityAction>
    {
      var s := ReadFields(Layout(), In(Fresh, input));
      Result(Fill(s.value), s.st)
    }

    function WriteTo(sink: Sink, orders: seq<seq<Byte>>): Out
      requires |orders| == |Fields()|
    {
      WritePacket(sink, Id(), Fields(), orders)
    }

    /**
     * `WriteTo` puts out the id and then bytes from which any receiver's
     * `ReadFrom` gets the packet back.
     */
    lemma RoundTrip(r: EntityAction, orders: seq<seq<Byte>>, tail: seq<Byte>)
      requires |orders| == |Fields()| && AllValid(Fields(), orders)
      ensures var o := WriteTo(Sink([], false), orders);
        Delivered(o, Id()) && r.ReadFrom(o.sink.out[1..] + tail) == ReadResult(this, o.rw.n - 1, None, tail)
    {
      LayoutOfFields();
      ReadBackFill(r);
      FlatRoundTrip(Id(), Layout(), Fields(), orders, tail, r.Fill, this);
    }

    /** `WriteTo` writes the kinds `ReadFrom` reads. */
    lemma LayoutOfFields()
      ensures KindsOf(Fields()) == Layout()
    {
    }

    /** The values written, once read back, fill any receiver with the packet. */
    lemma ReadBackFill(r: EntityAction)
      ensures r.Fill(ReadBacks(Fields())) == this
    {
    }
  }

  /** `EntityNamedSpawn`, packet 0x14. */
  datatype EntityNamedSpawn = EntityNamedSpawn(entity: Int32, name: string, x: Int32, y: Int32, z: Int32, yaw: Int8, pitch: Int8, item: Int16, metadata: map<Byte, Metadata.Entry>)
  {
    function Id(): Byte { 0x14 }

    /** The kinds `ReadFrom` reads, in order. */
    static function Layout(): seq<Kind> { [KInt(4), KString, KInt(4), KInt(4), KInt(4), KInt(1), KInt(1), KInt(2), KMetadata] }

    /** The fields `WriteTo` writes after the id, in order. */
    function Fields(): seq<Value> { [VInt(4, entity), VString(name), VInt(4, x), VInt(4, y), VInt(4, z), VInt(1, yaw), VInt(1, pitch), VInt(2, item), VMetadata(metadata)] }

    /** The receiver once `ReadFrom` has stored the values read. */
    function Fill(vs: seq<Value>): EntityNamedSpawn { EntityNamedSpawn(I32At(vs, 0), StrAt(vs, 1), I32At(vs, 2), I32At(vs, 3), I32At(vs, 4), I8At(vs, 5), I8At(vs, 6), I16At(vs, 7), MetaAt(vs, 8)) }

    function ReadFrom(input: seq<Byte>): ReadResult<EntityNamedSpawn>
    {
      var s := ReadFields(Layout(), In(Fresh, input));
      Result(Fill(s.value), s.st)
    }

    function WriteTo(sink: Sink, orders: seq<seq<Byte>>): Out
      requires |orders| == |Fields()|
    {
      WritePacket(sink, Id(), Fields(), orders)
    }

    /**
     * `WriteTo` puts out the id and then bytes from which any receiver's
     * `ReadFrom` gets the packet back.
     */
    lemma RoundTrip(r: EntityNamedSpawn, orders: seq<seq<Byte>>, tail: seq<Byte>)
      requires |orders| == |Fields()| && AllValid(Fields(), orders)
      ensures var o := WriteTo(Sink([], false), orders);
        Delivered(o, Id()) && r.ReadFrom(o.sink.out[1..] + tail) == ReadResult(this, o.rw.n - 1, None, tail)
    {
      LayoutOfFields();
      ReadBackFill(r);
      FlatRoundTrip(Id(), Layout(), Fields(), orders, tail, r.Fill, this);
    }

    /** `WriteTo` writes the kinds `ReadFrom` reads. */
    lemma LayoutOfFields()
      ensures KindsOf(Fields()) == Layout()
    {
    }

    /** The values written, once read back, fill any receiver with the packet. */
    lemma ReadBackFill(r: EntityNamedSpawn)
      ensures r.Fill(ReadBacks(Fields())) == this
    {
    }
  }

  /** `ItemCollect`, packet 0x16. */
  datatype ItemCollect = ItemCollect(whatId: Int32, whoId: Int32)
  {
    function Id(): Byte { 0x16 }

    /** The kinds `ReadFrom` reads, in order. */
    static function Layout(): seq<Kind> { [KInt(4), KInt(4)] }

    /** The fields `WriteTo` writes after the id, in order. */
    function Fields(): seq<Value> { [VInt(4, whatId), VInt(4, whoId)] }

    /** The receiver once `ReadFrom` has stored the values read. */
    function Fill(vs: seq<Value>): ItemCollect { ItemCollect(I32At(vs, 0), I32At(vs, 1)) }

    function ReadFrom(input: seq<Byte>): ReadResult<ItemCollect>
    {
      var s := ReadFields(Layout(), In(Fresh, input));
      Result(Fill(s.value), s.st)
    }

    function WriteTo(sink: Sink, orders: seq<seq<Byte>>): Out
      requires |orders| == |Fields()|
    {
      WritePacket(sink, Id(), Fields(), orders)
    }

    /**
     * `WriteTo` puts out the id and then bytes from which any receiver's
     * `ReadFrom` gets the packet back.
     */
    lemma RoundTrip(r: ItemCollect, orders: seq<seq<Byte>>, tail: seq<Byte>)
      requires |orders| == |Fields()| && AllValid(Fields(), orders)
      ensures var o := WriteTo(Sink([], false), orders);
        Delivered(o, Id()) && r.ReadFrom(o.sink.out[1..] + tail) == ReadResult(this, o.rw.n - 1, None, tail)
    {
      LayoutOfFields();
      ReadBackFill(r);
      FlatRoundTrip(Id(), Layout(), Fields(), orders, tail, r.Fill, this);
    }

    /** `WriteTo` writes the kinds `ReadFrom` reads. */
    lemma LayoutOfFields()
      ensures KindsOf(Fields()) == Layout()
    {
    }

    /** The values written, once read back, fill any receiver with the packet. */
    lemma ReadBackFill(r: ItemCollect)
      ensures r.Fill(ReadBacks(Fields())) == this
    {
    }
  }

  /** `SpawnObjectVehicle`, packet 0x17. */
  datatype SpawnObjectVehicle = SpawnObjectVehicle(entity: Int32, typ: Int8, x: Int32, y: Int32, z: Int32, pitch: Int8, yaw: Int8, objectData: Option<ObjectDatas.ObjectData>)
  {
    function Id(): Byte { 0x17 }

    /** The kinds `ReadFrom` reads, in order. */
    static function Layout(): seq<Kind> { [KInt(4), KInt(1), KInt(4), KInt(4), KInt(4), KInt(1), KInt(1), KObjectData] }

    /** The fields `WriteTo` writes after the id, in order. */
    function Fields(): seq<Value> { [VInt(4, entity), VInt(1, typ), VInt(4, x), VInt(4, y), VInt(4, z), VInt(1, pitch), VInt(1, yaw), VObjectData(objectData)] }

    /** The receiver once `ReadFrom` has stored the values read. */
    function Fill(vs: seq<Value>): SpawnObjectVehicle { SpawnObjectVehicle(I32At(vs, 0), I8At(vs, 1), I32At(vs, 2), I32At(vs, 3), I32At(vs, 4), I8At(vs, 5), I8At(vs, 6), ObjAt(vs, 7)) }

    function ReadFrom(input: seq<Byte>): ReadResult<SpawnObjectVehicle>
    {
      var s := ReadFields(Layout(), In(Fresh, input));
      Result(Fill(s.value), s.st)
    }

    function WriteTo(sink: Sink, orders: seq<seq<Byte>>): Out
      requires |orders| == |Fields()|
    {
      WritePacket(sink, Id(), Fields(), orders)
    }

    /**
     * `WriteTo` puts out the id and then bytes from which any receiver's
     * `ReadFrom` gets the packet back, except that zero `ObjectData` comes back without speeds.
     */
    lemma RoundTrip(r: SpawnObjectVehicle, orders: seq<seq<Byte>>, tail: seq<Byte>)
      requires |orders| == |Fields()| && AllValid(Fields(), orders)
      ensures var o := WriteTo(Sink([], false), orders);
        Delivered(o, Id()) && r.ReadFrom(o.sink.out[1..] + tail) == ReadResult(this.(objectData := ReadBackObjectData(objectData)), o.rw.n - 1, None, tail)
    {
      LayoutOfFields();
      ReadBackFill(r);
      FlatRoundTrip(Id(), Layout(), Fields(), orders, tail, r.Fill, this.(objectData := ReadBackObjectData(objectData)));
    }

    /** `WriteTo` writes the kinds `ReadFrom` reads. */
    lemma LayoutOfFields()
      ensures KindsOf(Fields()) == Layout()
    {
    }

    /** The values written, once read back, fill any receiver with the packet, except that zero `ObjectData` comes back without speeds. */
    lemma ReadBackFill(r: SpawnObjectVehicle)
      ensures r.Fill(ReadBacks(Fields())) == this.(objectData := ReadBackObjectData(objectData))
    {
    }
  }

  /** `SpawnMob`, packet 0x18. */
  datatype SpawnMob = SpawnMob(entity: Int32, typ: Int8, x: Int32, y: Int32, z: Int32, pitch: Int8, headPitch: Int8, yaw: Int8, velX: Int16, velY: Int16, velZ: Int16, metadata: map<Byte, Metadata.Entry>)
  {
    function Id(): Byte { 0x18 }

    /** The kinds `ReadFrom` reads, in order. */
    static function Layout(): seq<Kind> { [KInt(4), KInt(1), KInt(4), KInt(4), KInt(4), KInt(1), KInt(1), KInt(1), KInt(2), KInt(2), KInt(2), KMetadata] }

    /** The fields `WriteTo` writes after the id, in order. */
    function Fields(): seq<Value> { [VInt(4, entity), VInt(1, typ), VInt(4, x), VInt(4, y), VInt(4, z), VInt(1, pitch), VInt(1, headPitch), VInt(1, yaw), VInt(2, velX), VInt(2, velY), VInt(2, velZ), VMetadata(metadata)] }

    /** The receiver once `ReadFrom` has stored the values read. */
    function Fill(vs: seq<Value>): SpawnMob { SpawnMob(I32At(vs, 0), I8At(vs, 1), I32At(vs, 2), I32At(vs, 3), I32At(vs, 4), I8At(vs, 5), I8At(vs, 6), I8At(vs, 7), I16At(vs, 8), I16At(vs, 9), I16At(vs, 10), MetaAt(vs, 11)) }

    function ReadFrom(input: seq<Byte>): ReadResult<SpawnMob>
    {
      var s := ReadFields(Layout(), In(Fresh, input));
      Result(Fill(s.value), s.st)
    }

    function WriteTo(sink: Sink, orders: seq<seq<Byte>>): Out
      requires |orders| == |Fields()|
    {
      WritePacket(sink, Id(), Fields(), orders)
    }

    /**
     * `WriteTo` puts out the id and then bytes from which any receiver's
     * `ReadFrom` gets the packet back.
     */
    lemma RoundTrip(r: SpawnMob, orders: seq<seq<Byte>>, tail: seq<Byte>)
      requires |orders| == |Fields()| && AllValid(Fields(), orders)
      ensures var o := WriteTo(Sink([], false), orders);
        Delivered(o, Id()) && r.ReadFrom(o.sink.out[1..] + tail) == ReadResult(this, o.rw.n - 1, None, tail)
    {
      LayoutOfFields();
      ReadBackFill(r);
      FlatRoundTrip(Id(), Layout(), Fields(), orders, tail, r.Fill, this);
    }

    /** `WriteTo` writes the kinds `ReadFrom` reads. */
    lemma LayoutOfFields()
      ensures KindsOf(Fields()) == Layout()
    {
    }

    /** The values written, once read back, fill any receiver with the packet. */
    lemma ReadBackFill(r: SpawnMob)
      ensures r.Fill(ReadBacks(Fields())) == this
    {
    }
  }

  /** `SpawnPainting`, packet 0x19. */
  datatype SpawnPainting = SpawnPainting(entity: Int32, title: string, x: Int32, y: Int32, z: Int32, direction: Int32)
  {
    function Id(): Byte { 0x19 }

    /** The kinds `ReadFrom` reads, in order. */
    static function Layout(): seq<Kind> { [KInt(4), KString, KInt(4), KInt(4), KInt(4), KInt(4)] }

    /** The fields `WriteTo` writes after the id, in order. */
    function Fields(): seq<Value> { [VInt(4, entity), VString(title), VInt(4, x), VInt(4, y), VInt(4, z), VInt(4, direction)] }

    /** The receiver once `ReadFrom` has stored the values read. */
    function Fill(vs: seq<Value>): SpawnPainting { SpawnPainting(I32At(vs, 0), StrAt(vs, 1), I32At(vs, 2), I32At(vs, 3), I32At(vs, 4), I32At(vs, 5)) }

    function ReadFrom(input: seq<Byte>): ReadResult<SpawnPainting>
    {
      var s := ReadFields(Layout(), In(Fresh, input));
      Result(Fill(s.value), s.st)
    }

    function WriteTo(sink: Sink, orders: seq<seq<Byte>>): Out
      requires |orders| == |Fields()|
    {
      WritePacket(sink, Id(), Fields(), orders)
    }

    /**
     * `WriteTo` puts out the id and then bytes from which any receiver's
     * `ReadFrom` gets the packet back.
     */
    lemma RoundTrip(r: SpawnPainting, orders: seq<seq<Byte>>, tail: seq<Byte>)
      requires |orders| == |Fields()| && AllValid(Fields(), orders)
      ensures var o := WriteTo(Sink([], false), orders);
        Delivered(o, Id()) && r.ReadFrom(o.sink.out[1..] + tail) == ReadResult(this, o.rw.n - 1, None, tail)
    {
      LayoutOfFields();
      ReadBackFill(r);
      FlatRoundTrip(Id(), Layout(), Fields(), orders, tail, r.Fill, this);
    }

    /** `WriteTo` writes the kinds `ReadFrom` reads. */
    lemma LayoutOfFields()
      ensures KindsOf(Fields()) == Layout()
    {
    }

    /** The values written, once read back, fill any receiver with the packet. */
    lemma ReadBackFill(r: SpawnPainting)
      ensures r.Fill(ReadBacks(Fields())) == this
    {
    }
  }

  /** `SpawnExperienceOrb`, packet 0x1A. */
  datatype SpawnExperienceOrb = SpawnExperienceOrb(entity: Int32, x: Int32, y: Int32, z: Int32, count: Int16)
  {
    function Id(): Byte { 0x1A }

    /** The kinds `ReadFrom` reads, in order. */
    static function Layout(): seq<Kind> { [KInt(4), KInt(4), KInt(4), KInt(4), KInt(2)] }

    /** The fields `WriteTo` writes after the id, in order. */
    function Fields(): seq<Value> { [VInt(4, entity), VInt(4, x), VInt(4, y), VInt(4, z), VInt(2, count)] }

    /** The receiver once `ReadFrom` has stored the values read. */
    function Fill(vs: seq<Value>): SpawnExperienceOrb { SpawnExperienceOrb(I32At(vs, 0), I32At(vs, 1), I32At(vs, 2), I32At(vs, 3), I16At(vs, 4)) }

    function ReadFrom(input: seq<Byte>): ReadResult<SpawnExperienceOrb>
    {
      var s := ReadFields(Layout(), In(Fresh, input));
      Result(Fill(s.value), s.st)
    }

    function WriteTo(sink: Sink, orders: seq<seq<Byte>>): Out
      requires |orders| == |Fields()|
    {
      WritePacket(sink, Id(), Fields(), orders)
    }

    /**
     * `WriteTo` puts out the id and then bytes from which any receiver's
     * `ReadFrom` gets the packet back.
     */
    lemma RoundTrip(r: SpawnExperienceOrb, orders: seq<seq<Byte>>, tail: seq<Byte>)
      requires |orders| == |Fields()| && AllValid(Fields(), orders)
      ensures var o := WriteTo(Sink([], false), orders);
        Delivered(o, Id()) && r.ReadFrom(o.sink.out[1..] + tail) == ReadResult(this, o.rw.n - 1, None, tail)
    {
      LayoutOfFields();
      ReadBackFill(r);
      FlatRoundTrip(Id(), Layout(), Fields(), orders, tail, r.Fill, this);
    }

    /** `WriteTo` writes the kinds `ReadFrom` reads. */
    lemma LayoutOfFields()
      ensures KindsOf(Fields()) == Layout()
    {
    }

    /** The values written, once read back, fill any receiver with the packet. */
    lemma ReadBackFill(r: SpawnExperienceOrb)
      ensures r.Fill(ReadBacks(Fields())) == this
    {
    }
  }

  /** `EntityVelocity`, packet 0x1C. */
  datatype EntityVelocity = EntityVelocity(entity: Int32, velX: Int16, velY: Int16, velZ: Int16)
  {
    function Id(): Byte { 0x1C }

    /** The kinds `ReadFrom` reads, in order. */
    static function Layout(): seq<Kind> { [KInt(4), KInt(2), KInt(2), KInt(2)] }

    /** The fields `WriteTo` writes after the id, in order. */
    function Fields(): seq<Value> { [VInt(4, entity), VInt(2, velX), VInt(2, velY), VInt(2, velZ)] }

    /** The receiver once `ReadFrom` has stored the values read. */
    function Fill(vs: seq<Value>): EntityVelocity { EntityVelocity(I32At(vs, 0), I16At(vs, 1), I16At(vs, 2), I16At(vs, 3)) }

    function ReadFrom(input: seq<Byte>): ReadResult<EntityVelocity>
    {
      var s := ReadFields(Layout(), In(Fresh, input));
      Result(Fill(s.value), s.st)
    }

    function WriteTo(sink: Sink, orders: seq<seq<Byte>>): Out
      requires |orders| == |Fields()|
    {
      WritePacket(sink, Id(), Fields(), orders)
    }

    /**
     * `WriteTo` puts out the id and then bytes from which any receiver's
     * `ReadFrom` gets the packet back.
     */
    lemma RoundTrip(r: EntityVelocity, orders: seq<seq<Byte>>, tail: seq<Byte>)
      requires |orders| == |Fields()| && AllValid(Fields(), orders)
      ensures var o := WriteTo(Sink([], false), orders);
        Delivered(o, Id()) && r.ReadFrom(o.sink.out[1..] + tail) == ReadResult(this, o.rw.n - 1, None, tail)
    {
      LayoutOfFields();
      ReadBackFill(r);
      FlatRoundTrip(Id(), Layout(), Fields(), orders, tail, r.Fill, this);
    }

    /** `WriteTo` writes the kinds `ReadFrom` reads. */
    lemma LayoutOfFields()
      ensures KindsOf(Fields()) == Layout()
    {
    }

    /** The values written, once read back, fill any receiver with the packet. */
    lemma ReadBackFill(r: EntityVelocity)
      ensures r.Fill(ReadBacks(Fields())) == this
    {
    }
  }

  /**
   * `EntityDestroy`, packet 0x1D: a count, then that many entity ids. The
   * write sends the number of ids as an `int8`, whatever `Count` holds.
   */
  datatype EntityDestroy = EntityDestroy(count: Int8, entities: seq<Int32>)
  {
    function Id(): Byte { 0x1D }

    /** The count, read first. */
    static function Head(): seq<Kind> { [KInt(1)] }

    /** The ids a count announces; the loop runs no times for a negative count. */
    static function Run(count: Int8): seq<Kind> { Repeat(KInt(4), if count < 0 then 0 else count) }

    /** The count as it is written: the number of ids, converted to `int8`. */
    function HeadValues(): seq<Value> { [VInt(1, Wrap(|entities|, 1))] }

    function Fields(): seq<Value> { HeadValues() + Int32Values(entities) }

    /** The ids read are appended to those the receiver already holds. */
    function ReadFrom(input: seq<Byte>): ReadResult<EntityDestroy>
    {
      var h := ReadFields(Head(), In(Fresh, input));
      var c := I8At(h.value, 0);
      var s := ReadFields(Run(c), h.st);
      Result(EntityDestroy(c, entities + Int32s(s.value)), s.st)
    }

    function WriteTo(sink: Sink, orders: seq<seq<Byte>>): Out
      requires |orders| == |Fields()|
    {
      WritePacket(sink, Id(), Fields(), orders)
    }

    /**
     * Up to 127 ids come back, after those the receiver already holds, and the
     * count becomes their number.
     */
    lemma RoundTrip(r: EntityDestroy, orders: seq<seq<Byte>>, tail: seq<Byte>)
      requires |orders| == |Fields()| && |entities| < 0x80
      ensures var o := WriteTo(Sink([], false), orders);
        Delivered(o, Id()) &&
        r.ReadFrom(o.sink.out[1..] + tail) == ReadResult(EntityDestroy(|entities|, r.entities + entities), o.rw.n - 1, None, tail)
    {
      Written(orders, tail);
      var o := WriteTo(Sink([], false), orders);
      Int32sRoundTrip(entities);
      ReadsBack(r, o.sink.out[1..] + tail, ReadBacks(Int32Values(entities)), In(RW(o.rw.n - 1, None), tail));
    }

    /** What `WriteTo` puts out reads as the count and then the ids. */
    lemma Written(orders: seq<seq<Byte>>, tail: seq<Byte>)
      requires |orders| == |Fields()|
      ensures var o := WriteTo(Sink([], false), orders);
        Delivered(o, Id()) &&
        ReadsAs(o.sink.out[1..] + tail, Head(), HeadValues(), Repeat(KInt(4), |entities|), ReadBacks(Int32Values(entities)),
                In(RW(o.rw.n - 1, None), tail))
    {
      FieldsValid(orders);
      PlainReadBack(HeadValues());
      Int32sRoundTrip(entities);
      SplitRoundTrip(Id(), HeadValues(), Int32Values(entities), orders, tail,
                     Head(), HeadValues(), Repeat(KInt(4), |entities|), ReadBacks(Int32Values(entities)));
    }

    lemma FieldsValid(orders: seq<seq<Byte>>)
      requires |orders| == |Fields()|
      ensures AllValid(Fields(), orders)
    {
    }

    /** What the receiver makes of an input whose count and ids read as written. */
    lemma ReadsBack(r: EntityDestroy, input: seq<Byte>, vs: seq<Value>, st: In)
      requires |entities| < 0x80 && Int32s(vs) == entities
      requires ReadsAs(input, Head(), HeadValues(), Repeat(KInt(4), |entities|), vs, st)
      ensures r.ReadFrom(input) == Result(EntityDestroy(|entities|, r.entities + entities), st)
    {
    }

    /** 128 ids wrap the count byte to -128, so a reader takes none of them. */
    lemma CountWraps(r: EntityDestroy, orders: seq<seq<Byte>>, tail: seq<Byte>)
      requires |orders| == |Fields()| && |entities| == 0x80
      ensures var o := WriteTo(Sink([], false), orders);
        Delivered(o, Id()) && r.ReadFrom(o.sink.out[1..] + tail).packet == EntityDestroy(-0x80, r.entities)
    {
      Written(orders, tail);
      var o := WriteTo(Sink([], false), orders);
      ReadsWrapped(r, o.sink.out[1..] + tail, ReadBacks(Int32Values(entities)), In(RW(o.rw.n - 1, None), tail));
    }

    lemma ReadsWrapped(r: EntityDestroy, input: seq<Byte>, vs: seq<Value>, st: In)
      requires |entities| == 0x80 && ReadsAs(input, Head(), HeadValues(), Repeat(KInt(4), |entities|), vs, st)
      ensures r.ReadFrom(input).packet == EntityDestroy(-0x80, r.entities)
    {
      assert r.entities + [] == r.entities;
    }

    /** `ReadFrom` on a stream: the count, then the loop over the ids. */
    method Read(r: Reader) returns (p: EntityDestroy, n: int, err: Option<Error>)
      modifies r
      ensures ReadResult(p, n, err, r.rest) == ReadFrom(old(r.rest))
    {
      var rw := new ReadWriter();
      var h := ReadFieldsFrom(rw, Head(), r);
      var c := I8At(h, 0);
      var s := ReadFieldsFrom(rw, Run(c), r);
      p := EntityDestroy(c, entities + Int32s(s));
      n, err := rw.Result();
    }
  }

  /** `Entity`, packet 0x1E. */
  datatype Entity = Entity(entity: Int32)
  {
    function Id(): Byte { 0x1E }

    /** The kinds `ReadFrom` reads, in order. */
    static function Layout(): seq<Kind> { [KInt(4)] }

    /** The fields `WriteTo` writes after the id, in order. */
    function Fields(): seq<Value> { [VInt(4, entity)] }

    /** The receiver once `ReadFrom` has stored the values read. */
    function Fill(vs: seq<Value>): Entity { Entity(I32At(vs, 0)) }

    function ReadFrom(input: seq<Byte>): ReadResult<Entity>
    {
      var s := ReadFields(Layout(), In(Fresh, input));
      Result(Fill(s.value), s.st)
    }

    function WriteTo(sink: Sink, orders: seq<seq<Byte>>): Out
      requires |orders| == |Fields()|
    {
      WritePacket(sink, Id(), Fields(), orders)
    }

    /**
     * `WriteTo` puts out the id and then bytes from which any receiver's
     * `ReadFrom` gets the packet back.
     */
    lemma RoundTrip(r: Entity, orders: seq<seq<Byte>>, tail: seq<Byte>)
      requires |orders| == |Fields()| && AllValid(Fields(), orders)
      ensures var o := WriteTo(Sink([], false), orders);
        Delivered(o, Id()) && r.ReadFrom(o.sink.out[1..] + tail) == ReadResult(this, o.rw.n - 1, None, tail)
    {
      LayoutOfFields();
      ReadBackFill(r);
      FlatRoundTrip(Id(), Layout(), Fields(), orders, tail, r.Fill, this);
    }

    /** `WriteTo` writes the kinds `ReadFrom` reads. */
    lemma LayoutOfFields()
      ensures KindsOf(Fields()) == Layout()
    {
    }

    /** The values written, once read back, fill any receiver with the packet. */
    lemma ReadBackFill(r: Entity)
      ensures r.Fill(ReadBacks(Fields())) == this
    {
    }
  }

  /** `EntityRelMove`, packet 0x1F. */
  datatype EntityRelMove = EntityRelMove(entity: Int32, x: Int8, y: Int8, z: Int8)
  {
    function Id(): Byte { 0x1F }

    /** The kinds `ReadFrom` reads, in order. */
    static function Layout(): seq<Kind> { [KInt(4), KInt(1), KInt(1), KInt(1)] }

    /** The fields `WriteTo` writes after the id, in order. */
    function Fields(): seq<Value> { [VInt(4, entity), VInt(1, x), VInt(1, y), VInt(1, z)] }

    /** The receiver once `ReadFrom` has stored the values read. */
    function Fill(vs: seq<Value>): EntityRelMove { EntityRelMove(I32At(vs, 0), I8At(vs, 1), I8At(vs, 2), I8At(vs, 3)) }

    function ReadFrom(input: seq<Byte>): ReadResult<EntityRelMove>
    {
      var s := ReadFields(Layout(), In(Fresh, input));
      Result(Fill(s.value), s.st)
    }

    function WriteTo(sink: Sink, orders: seq<seq<Byte>>): Out
      requires |orders| == |Fields()|
    {
      WritePacket(sink, Id(), Fields(), orders)
    }

    /**
     * `WriteTo` puts out the id and then bytes from which any receiver's
     * `ReadFrom` gets the packet back.
     */
    lemma RoundTrip(r: EntityRelMove, orders: seq<seq<Byte>>, tail: seq<Byte>)
      requires |orders| == |Fields()| && AllValid(Fields(), orders)
      ensures var o := WriteTo(Sink([], false), orders);
        Delivered(o, Id()) && r.ReadFrom(o.sink.out[1..] + tail) == ReadResult(this, o.rw.n - 1, None, tail)
    {
      LayoutOfFields();
      ReadBackFill(r);
      FlatRoundTrip(Id(), Layout(), Fields(), orders, tail, r.Fill, this);
    }

    /** `WriteTo` writes the kinds `ReadFrom` reads. */
    lemma LayoutOfFields()
      ensures KindsOf(Fields()) == Layout()
    {
    }

    /** The values written, once read back, fill any receiver with the packet. */
    lemma ReadBackFill(r: EntityRelMove)
      ensures r.Fill(ReadBacks(Fields())) == this
    {
    }
  }

  /** `EntityLook`, packet 0x20. */
  datatype EntityLook = EntityLook(entity: Int32, yaw: Int8, pitch: Int8)
  {
    function Id(): Byte { 0x20 }

    /** The kinds `ReadFrom` reads, in order. */
    static function Layout(): seq<Kind> { [KInt(4), KInt(1), KInt(1)] }

    /** The fields `WriteTo` writes after the id, in order. */
    function Fields(): seq<Value> { [VInt(4, entity), VInt(1, yaw), VInt(1, pitch)] }

    /** The receiver once `ReadFrom` has stored the values read. */
    function Fill(vs: seq<Value>): EntityLook { EntityLook(I32At(vs, 0), I8At(vs, 1), I8At(vs, 2)) }

    function ReadFrom(input: seq<Byte>): ReadResult<EntityLook>
    {
      var s := ReadFields(Layout(), In(Fresh, input));
      Result(Fill(s.value), s.st)
    }

    function WriteTo(sink: Sink, orders: seq<seq<Byte>>): Out
      requires |orders| == |Fields()|
    {
      WritePacket(sink, Id(), Fields(), orders)
    }

    /**
     * `WriteTo` puts out the id and then bytes from which any receiver's
     * `ReadFrom` gets the packet back.
     */
    lemma RoundTrip(r: EntityLook, orders: seq<seq<Byte>>, tail: seq<Byte>)
      requires |orders| == |Fields()| && AllValid(Fields(), orders)
      ensures var o := WriteTo(Sink([], false), orders);
        Delivered(o, Id()) && r.ReadFrom(o.sink.out[1..] + tail) == ReadResult(this, o.rw.n - 1, None, tail)
    {
      LayoutOfFields();
      ReadBackFill(r);
      FlatRoundTrip(Id(), Layout(), Fields(), orders, tail, r.Fill, this);
    }

    /** `WriteTo` writes the kinds `ReadFrom` reads. */
    lemma LayoutOfFields()
      ensures KindsOf(Fields()) == Layout()
    {
    }

    /** The values written, once read back, fill any receiver with the packet. */
    lemma ReadBackFill(r: EntityLook)
      ensures r.Fill(ReadBacks(Fields())) == this
    {
    }
  }

  /** `EntityLookRelMove`, packet 0x21. */
  datatype EntityLookRelMove = EntityLookRelMove(entity: Int32, x: Int8, y: Int8, z: Int8, yaw: Int8, pitch: Int8)
  {
    function Id(): Byte { 0x21 }

    /** The kinds `ReadFrom` reads, in order. */
    static function Layout(): seq<Kind> { [KInt(4), KInt(1), KInt(1), KInt(1), KInt(1), KInt(1)] }

    /** The fields `WriteTo` writes after the id, in order. */
    function Fields(): seq<Value> { [VInt(4, entity), VInt(1, x), VInt(1, y), VInt(1, z), VInt(1, yaw), VInt(1, pitch)] }

    /** The receiver once `ReadFrom` has stored the values read. */
    function Fill(vs: seq<Value>): EntityLookRelMove { EntityLookRelMove(I32At(vs, 0), I8At(vs, 1), I8At(vs, 2), I8At(vs, 3), I8At(vs, 4), I8At(vs, 5)) }

    function ReadFrom(input: seq<Byte>): ReadResult<EntityLookRelMove>
    {
      var s := ReadFields(Layout(), In(Fresh, input));
      Result(Fill(s.value), s.st)
    }

    function WriteTo(sink: Sink, orders: seq<seq<Byte>>): Out
      requires |orders| == |Fields()|
    {
      WritePacket(sink, Id(), Fields(), orders)
    }

    /**
     * `WriteTo` puts out the id and then bytes from which any receiver's
     * `ReadFrom` gets the packet back.
     */
    lemma RoundTrip(r: EntityLookRelMove, orders: seq<seq<Byte>>, tail: seq<Byte>)
      requires |orders| == |Fields()| && AllValid(Fields(), orders)
      ensures var o := WriteTo(Sink([], false), orders);
        Delivered(o, Id()) && r.ReadFrom(o.sink.out[1..] + tail) == ReadResult(this, o.rw.n - 1, None, tail)
    {
      LayoutOfFields();
      ReadBackFill(r);
      FlatRoundTrip(Id(), Layout(), Fields(), orders, tail, r.Fill, this);
    }

    /** `WriteTo` writes the kinds `ReadFrom` reads. */
    lemma LayoutOfFields()
      ensures KindsOf(Fields()) == Layout()
    {
    }

    /** The values written, once read back, fill any receiver with the packet. */
    lemma ReadBackFill(r: EntityLookRelMove)
      ensures r.Fill(ReadBacks(Fields())) == this
    {
    }
  }

  /** `EntityTeleport`, packet 0x22. */
  datatype EntityTeleport = EntityTeleport(entity: Int32, x: Int32, y: Int32, z: Int32, yaw: Int8, pitch: Int8)
  {
    function Id(): Byte { 0x22 }

    /** The kinds `ReadFrom` reads, in order. */
    static function Layout(): seq<Kind> { [KInt(4), KInt(4), KInt(4), KInt(4), KInt(1), KInt(1)] }

    /** The fields `WriteTo` writes after the id, in order. */
    function Fields(): seq<Value> { [VInt(4, entity), VInt(4, x), VInt(4, y), VInt(4, z), VInt(1, yaw), VInt(1, pitch)] }

    /** The receiver once `ReadFrom` has stored the values read. */
    function Fill(vs: seq<Value>): EntityTeleport { EntityTeleport(I32At(vs, 0), I32At(vs, 1), I32At(vs, 2), I32At(vs, 3), I8At(vs, 4), I8At(vs, 5)) }

    function ReadFrom(input: seq<Byte>): ReadResult<EntityTeleport>
    {
      var s := ReadFields(Layout(), In(Fresh, input));
      Result(Fill(s.value), s.st)
    }

    function WriteTo(sink: Sink, orders: seq<seq<Byte>>): Out
      requires |orders| == |Fields()|
    {
      WritePacket(sink, Id(), Fields(), orders)
    }

    /**
     * `WriteTo` puts out the id and then bytes from which any receiver's
     * `ReadFrom` gets the packet back.
     */
    lemma RoundTrip(r: EntityTeleport, orders: seq<seq<Byte>>, tail: seq<Byte>)
      requires |orders| == |Fields()| && AllValid(Fields(), orders)
      ensures var o := WriteTo(Sink([], false), orders);
        Delivered(o, Id()) && r.ReadFrom(o.sink.out[1..] + tail) == ReadResult(this, o.rw.n - 1, None, tail)
    {
      LayoutOfFields();
      ReadBackFill(r);
      FlatRoundTrip(Id(), Layout(), Fields(), orders, tail, r.Fill, this);
    }

    /** `WriteTo` writes the kinds `ReadFrom` reads. */
    lemma LayoutOfFields()
      ensures KindsOf(Fields()) == Layout()
    {
    }

    /** The values written, once read back, fill any receiver with the packet. */
    lemma ReadBackFill(r: EntityTeleport)
      ensures r.Fill(ReadBacks(Fields())) == this
    {
    }
  }

  /** `EntityHeadLook`, packet 0x23. */
  datatype EntityHeadLook = EntityHeadLook(entity: Int32, headYaw: Int8)
  {
    function Id(): Byte { 0x23 }

    /** The kinds `ReadFrom` reads, in order. */
    static function Layout(): seq<Kind> { [KInt(4), KInt(1)] }

    /** The fields `WriteTo` writes after the id, in order. */
    function Fields(): seq<Value> { [VInt(4, entity), VInt(1, headYaw)] }

    /** The receiver once `ReadFrom` has stored the values read. */
    function Fill(vs: seq<Value>): EntityHeadLook { EntityHeadLook(I32At(vs, 0), I8At(vs, 1)) }

    function ReadFrom(input: seq<Byte>): ReadResult<EntityHeadLook>
    {
      var s := ReadFields(Layout(), In(Fresh, input));
      Result(Fill(s.value), s.st)
    }

    function WriteTo(sink: Sink, orders: seq<seq<Byte>>): Out
      requires |orders| == |Fields()|
    {
      WritePacket(sink, Id(), Fields(), orders)
    }

    /**
     * `WriteTo` puts out the id and then bytes from which any receiver's
     * `ReadFrom` gets the packet back.
     */
    lemma RoundTrip(r: EntityHeadLook, orders: seq<seq<Byte>>, tail: seq<Byte>)
      requires |orders| == |Fields()| && AllValid(Fields(), orders)
      ensures var o := WriteTo(Sink([], false), orders);
        Delivered(o, Id()) && r.ReadFrom(o.sink.out[1..] + tail) == ReadResult(this, o.rw.n - 1, None, tail)
    {
      LayoutOfFields();
      ReadBackFill(r);
      FlatRoundTrip(Id(), Layout(), Fields(), orders, tail, r.Fill, this);
    }

    /** `WriteTo` writes the kinds `ReadFrom` reads. */
    lemma LayoutOfFields()
      ensures KindsOf(Fields()) == Layout()
    {
    }

    /** The values written, once read back, fill any receiver with the packet. */
    lemma ReadBackFill(r: EntityHeadLook)
      ensures r.Fill(ReadBacks(Fields())) == this
    {
    }
  }

  /** `EntityStatus`, packet 0x26. */
  datatype EntityStatus = EntityStatus(entity: Int32, status: Int8)
  {
    function Id(): Byte { 0x26 }

    /** The kinds `ReadFrom` reads, in order. */
    static function Layout(): seq<Kind> { [KInt(4), KInt(1)] }

    /** The fields `WriteTo` writes after the id, in order. */
    function Fields(): seq<Value> { [VInt(4, entity), VInt(1, status)] }

    /** The receiver once `ReadFrom` has stored the values read. */
    function Fill(vs: seq<Value>): EntityStatus { EntityStatus(I32At(vs, 0), I8At(vs, 1)) }

    function ReadFrom(input: seq<Byte>): ReadResult<EntityStatus>
    {
      var s := ReadFields(Layout(), In(Fresh, input));
      Result(Fill(s.value), s.st)
    }

    function WriteTo(sink: Sink, orders: seq<seq<Byte>>): Out
      requires |orders| == |Fields()|
    {
      WritePacket(sink, Id(), Fields(), orders)
    }

    /**
     * `WriteTo` puts out the id and then bytes from which any receiver's
     * `ReadFrom` gets the packet back.
     */
    lemma RoundTrip(r: EntityStatus, orders: seq<seq<Byte>>, tail: seq<Byte>)
      requires |orders| == |Fields()| && AllValid(Fields(), orders)
      ensures var o := WriteTo(Sink([], false), orders);
        Delivered(o, Id()) && r.ReadFrom(o.sink.out[1..] + tail) == ReadResult(this, o.rw.n - 1, None, tail)
    {
      LayoutOfFields();
      ReadBackFill(r);
      FlatRoundTrip(Id(), Layout(), Fields(), orders, tail, r.Fill, this);
    }

    /** `WriteTo` writes the kinds `ReadFrom` reads. */
    lemma LayoutOfFields()
      ensures KindsOf(Fields()) == Layout()
    {
    }

    /** The values written, once read back, fill any receiver with the packet. */
    lemma ReadBackFill(r: EntityStatus)
      ensures r.Fill(ReadBacks(Fields())) == this
    {
    }
  }

  /** `EntityAttach`, packet 0x27. */
  datatype EntityAttach = EntityAttach(entity: Int32, vehicleId: Int32)
  {
    function Id(): Byte { 0x27 }

    /** The kinds `ReadFrom` reads, in order. */
    static function Layout(): seq<Kind> { [KInt(4), KInt(4)] }

    /** The fields `WriteTo` writes after the id, in order. */
    function Fields(): seq<Value> { [VInt(4, entity), VInt(4, vehicleId)] }

    /** The receiver once `ReadFrom` has stored the values read. */
    function Fill(vs: seq<Value>): EntityAttach { EntityAttach(I32At(vs, 0), I32At(vs, 1)) }

    function ReadFrom(input: seq<Byte>): ReadResult<EntityAttach>
    {
      var s := ReadFields(Layout(), In(Fresh, input));
      Result(Fill(s.value), s.st)
    }

    function WriteTo(sink: Sink, orders: seq<seq<Byte>>): Out
      requires |orders| == |Fields()|
    {
      WritePacket(sink, Id(), Fields(), orders)
    }

    /**
     * `WriteTo` puts out the id and then bytes from which any receiver's
     * `ReadFrom` gets the packet back.
     */
    lemma RoundTrip(r: EntityAttach, orders: seq<seq<Byte>>, tail: seq<Byte>)
      requires |orders| == |Fields()| && AllValid(Fields(), orders)
      ensures var o := WriteTo(Sink([], false), orders);
        Delivered(o, Id()) && r.ReadFrom(o.sink.out[1..] + tail) == ReadResult(this, o.rw.n - 1, None, tail)
    {
      LayoutOfFields();
      ReadBackFill(r);
      FlatRoundTrip(Id(), Layout(), Fields(), orders, tail, r.Fill, this);
    }

    /** `WriteTo` writes the kinds `ReadFrom` reads. */
    lemma LayoutOfFields()
      ensures KindsOf(Fields()) == Layout()
    {
    }

    /** The values written, once read back, fill any receiver with the packet. */
    lemma ReadBackFill(r: EntityAttach)
      ensures r.Fill(ReadBacks(Fields())) == this
    {
    }
  }

  /** `EntityMetadata`, packet 0x28. */
  datatype EntityMetadata = EntityMetadata(entity: Int32, meta: map<Byte, Metadata.Entry>)
  {
    function Id(): Byte { 0x28 }

    /** The kinds `ReadFrom` reads, in order. */
    static function Layout(): seq<Kind> { [KInt(4), KMetadata] }

    /** The fields `WriteTo` writes after the id, in order. */
    function Fields(): seq<Value> { [VInt(4, entity), VMetadata(meta)] }

    /** The receiver once `ReadFrom` has stored the values read. */
    function Fill(vs: seq<Value>): EntityMetadata { EntityMetadata(I32At(vs, 0), MetaAt(vs, 1)) }

    function ReadFrom(input: seq<Byte>): ReadResult<EntityMetadata>
    {
      var s := ReadFields(Layout(), In(Fresh, input));
      Result(Fill(s.value), s.st)
    }

    function WriteTo(sink: Sink, orders: seq<seq<Byte>>): Out
      requires |orders| == |Fields()|
    {
      WritePacket(sink, Id(), Fields(), orders)
    }

    /**
     * `WriteTo` puts out the id and then bytes from which any receiver's
     * `ReadFrom` gets the packet back.
     */
    lemma RoundTrip(r: EntityMetadata, orders: seq<seq<Byte>>, tail: seq<Byte>)
      requires |orders| == |Fields()| && AllValid(Fields(), orders)
      ensures var o := WriteTo(Sink([], false), orders);
        Delivered(o, Id()) && r.ReadFrom(o.sink.out[1..] + tail) == ReadResult(this, o.rw.n - 1, None, tail)
    {
      LayoutOfFields();
      ReadBackFill(r);
      FlatRoundTrip(Id(), Layout(), Fields(), orders, tail, r.Fill, this);
    }

    /** `WriteTo` writes the kinds `ReadFrom` reads. */
    lemma LayoutOfFields()
      ensures KindsOf(Fields()) == Layout()
    {
    }

    /** The values written, once read back, fill any receiver with the packet. */
    lemma ReadBackFill(r: EntityMetadata)
      ensures r.Fill(ReadBacks(Fields())) == this
    {
    }
  }

  /** `EntityEffect`, packet 0x29. */
  datatype EntityEffect = EntityEffect(entity: Int32, effect: Int8, amplifier: Int8, duration: Int16)
  {
    function Id(): Byte { 0x29 }

    /** The kinds `ReadFrom` reads, in order. */
    static function Layout(): seq<Kind> { [KInt(4), KInt(1), KInt(1), KInt(2)] }

    /** The fields `WriteTo` writes after the id, in order. */
    function Fields(): seq<Value> { [VInt(4, entity), VInt(1, effect), VInt(1, amplifier), VInt(2, duration)] }

    /** The receiver once `ReadFrom` has stored the values read. */
    function Fill(vs: seq<Value>): EntityEffect { EntityEffect(I32At(vs, 0), I8At(vs, 1), I8At(vs, 2), I16At(vs, 3)) }

    function ReadFrom(input: seq<Byte>): ReadResult<EntityEffect>
    {
      var s := ReadFields(Layout(), In(Fresh, input));
      Result(Fill(s.value), s.st)
    }

    function WriteTo(sink: Sink, orders: seq<seq<Byte>>): Out
      requires |orders| == |Fields()|
    {
      WritePacket(sink, Id(), Fields(), orders)
    }

    /**
     * `WriteTo` puts out the id and then bytes from which any receiver's
     * `ReadFrom` gets the packet back.
     */
    lemma RoundTrip(r: EntityEffect, orders: seq<seq<Byte>>, tail: seq<Byte>)
      requires |orders| == |Fields()| && AllValid(Fields(), orders)
      ensures var o := WriteTo(Sink([], false), orders);
        Delivered(o, Id()) && r.ReadFrom(o.sink.out[1..] + tail) == ReadResult(this, o.rw.n - 1, None, tail)
    {
      LayoutOfFields();
      ReadBackFill(r);
      FlatRoundTrip(Id(), Layout(), Fields(), orders, tail, r.Fill, this);
    }

    /** `WriteTo` writes the kinds `ReadFrom` reads. */
    lemma LayoutOfFields()
      ensures KindsOf(Fields()) == Layout()
    {
    }

    /** The values written, once read back, fill any receiver with the packet. */
    lemma ReadBackFill(r: EntityEffect)
      ensures r.Fill(ReadBacks(Fields())) == this
    {
    }
  }

  /** `EntityEffectRemove`, packet 0x2A. */
  datatype EntityEffectRemove = EntityEffectRemove(entity: Int32, effect: Int8)
  {
    function Id(): Byte { 0x2A }

    /** The kinds `ReadFrom` reads, in order. */
    static function Layout(): seq<Kind> { [KInt(4), KInt(1)] }

    /** The fields `WriteTo` writes after the id, in order. */
    function Fields(): seq<Value> { [VInt(4, entity), VInt(1, effect)] }

    /** The receiver once `ReadFrom` has stored the values read. */
    function Fill(vs: seq<Value>): EntityEffectRemove { EntityEffectRemove(I32At(vs, 0), I8At(vs, 1)) }

    function ReadFrom(input: seq<Byte>): ReadResult<EntityEffectRemove>
    {
      var s := ReadFields(Layout(), In(Fresh, input));
      Result(Fill(s.value), s.st)
    }

    function WriteTo(sink: Sink, orders: seq<seq<Byte>>): Out
      requires |orders| == |Fields()|
    {
      WritePacket(sink, Id(), Fields(), orders)
    }

    /**
     * `WriteTo` puts out the id and then bytes from which any receiver's
     * `ReadFrom` gets the packet back.
     */
    lemma RoundTrip(r: EntityEffectRemove, orders: seq<seq<Byte>>, tail: seq<Byte>)
      requires |orders| == |Fields()| && AllValid(Fields(), orders)
      ensures var o := WriteTo(Sink([], false), orders);
        Delivered(o, Id()) && r.ReadFrom(o.sink.out[1..] + tail) == ReadResult(this, o.rw.n - 1, None, tail)
    {
      LayoutOfFields();
      ReadBackFill(r);
      FlatRoundTrip(Id(), Layout(), Fields(), orders, tail, r.Fill, this);
    }

    /** `WriteTo` writes the kinds `ReadFrom` reads. */
    lemma LayoutOfFields()
      ensures KindsOf(Fields()) == Layout()
    {
    }

    /** The values written, once read back, fill any receiver with the packet. */
    lemma ReadBackFill(r: EntityEffectRemove)
      ensures r.Fill(ReadBacks(Fields())) == this
    {
    }
  }

  /** `SetExperience`, packet 0x2B. */
  datatype SetExperience = SetExperience(xp: Float32Bits, level: Int16, totalXp: Int16)
  {
    function Id(): Byte { 0x2B }

    /** The kinds `ReadFrom` reads, in order. */
    static function Layout(): seq<Kind> { [KFloat(4), KInt(2), KInt(2)] }

    /** The fields `WriteTo` writes after the id, in order. */
    function Fields(): seq<Value> { [VFloat(4, xp), VInt(2, level), VInt(2, totalXp)] }

    /** The receiver once `ReadFrom` has stored the values read. */
    function Fill(vs: seq<Value>): SetExperience { SetExperience(F32At(vs, 0), I16At(vs, 1), I16At(vs, 2)) }

    function ReadFrom(input: seq<Byte>): ReadResult<SetExperience>
    {
      var s := ReadFields(Layout(), In(Fresh, input));
      Result(Fill(s.value), s.st)
    }

    function WriteTo(sink: Sink, orders: seq<seq<Byte>>): Out
      requires |orders| == |Fields()|
    {
      WritePacket(sink, Id(), Fields(), orders)
    }

    /**
     * `WriteTo` puts out the id and then bytes from which any receiver's
     * `ReadFrom` gets the packet back.
     */
    lemma RoundTrip(r: SetExperience, orders: seq<seq<Byte>>, tail: seq<Byte>)
      requires |orders| == |Fields()| && AllValid(Fields(), orders)
      ensures var o := WriteTo(Sink([], false), orders);
        Delivered(o, Id()) && r.ReadFrom(o.sink.out[1..] + tail) == ReadResult(this, o.rw.n - 1, None, tail)
    {
      LayoutOfFields();
      ReadBackFill(r);
      FlatRoundTrip(Id(), Layout(), Fields(), orders, tail, r.Fill, this);
    }

    /** `WriteTo` writes the kinds `ReadFrom` reads. */
    lemma LayoutOfFields()
      ensures KindsOf(Fields()) == Layout()
    {
    }

    /** The values written, once read back, fill any receiver with the packet. */
    lemma ReadBackFill(r: SetExperience)
      ensures r.Fill(ReadBacks(Fields())) == this
    {
    }
  }

  /** `ChunkData`, packet 0x33. */
  datatype ChunkData = ChunkData(x: Int32, z: Int32, allColSections: bool, primary: Uint16, add: Uint16, chunkData: seq<Byte>)
  {
    function Id(): Byte { 0x33 }

    /** The kinds `ReadFrom` reads, in order. */
    static function Layout(): seq<Kind> { [KInt(4), KInt(4), KBool, KInt(2), KInt(2), KBytes(4)] }

    /** The fields `WriteTo` writes after the id, in order. */
    function Fields(): seq<Value> { [VInt(4, x), VInt(4, z), VBool(allColSections), VInt(2, AsInt16(primary)), VInt(2, AsInt16(add)), VBytes(4, chunkData)] }

    /** The receiver once `ReadFrom` has stored the values read. */
    function Fill(vs: seq<Value>): ChunkData { ChunkData(I32At(vs, 0), I32At(vs, 1), BoolAt(vs, 2), AsUint16(I16At(vs, 3)), AsUint16(I16At(vs, 4)), BytesAt(vs, 5)) }

    function ReadFrom(input: seq<Byte>): ReadResult<ChunkData>
    {
      var s := ReadFields(Layout(), In(Fresh, input));
      Result(Fill(s.value), s.st)
    }

    function WriteTo(sink: Sink, orders: seq<seq<Byte>>): Out
      requires |orders| == |Fields()|
    {
      WritePacket(sink, Id(), Fields(), orders)
    }

    /**
     * `WriteTo` puts out the id and then bytes from which any receiver's
     * `ReadFrom` gets the packet back.
     */
    lemma RoundTrip(r: ChunkData, orders: seq<seq<Byte>>, tail: seq<Byte>)
      requires |orders| == |Fields()| && AllValid(Fields(), orders)
      ensures var o := WriteTo(Sink([], false), orders);
        Delivered(o, Id()) && r.ReadFrom(o.sink.out[1..] + tail) == ReadResult(this, o.rw.n - 1, None, tail)
    {
      LayoutOfFields();
      ReadBackFill(r);
      FlatRoundTrip(Id(), Layout(), Fields(), orders, tail, r.Fill, this);
    }

    /** `WriteTo` writes the kinds `ReadFrom` reads. */
    lemma LayoutOfFields()
      ensures KindsOf(Fields()) == Layout()
    {
    }

    /** The values written, once read back, fill any receiver with the packet. */
    lemma ReadBackFill(r: ChunkData)
      ensures r.Fill(ReadBacks(Fields())) == this
    {
    }
  }

  /**
   * `BlockChangeMulti`, packet 0x34: a chunk, a count, a byte length and
   * then `Count` block records. The write sends every record it holds after
   * the `Count` field, whatever that field says.
   */
  datatype BlockChangeMulti = BlockChangeMulti(x: Int32, z: Int32, count: Int16, length: Int32, blocks: seq<Int32>)
  {
    function Id(): Byte { 0x34 }

    static function Head(): seq<Kind> { [KInt(4), KInt(4), KInt(2), KInt(4)] }

    /** The header values as they are written and read. */
    function HeadValues(): seq<Value> { [VInt(4, x), VInt(4, z), VInt(2, count), VInt(4, length)] }

    function Fields(): seq<Value> { HeadValues() + Int32Values(blocks) }

    /**
     * The header, then `make([]int32, Count)`, which panics for a negative
     * count and leaves the receiver's records in place; otherwise the records
     * read replace them.
     */
    function ReadFrom(input: seq<Byte>): ReadResult<BlockChangeMulti>
    {
      ReadBlocks(ReadFields(Head(), In(Fresh, input)))
    }

    /** What follows the header `h`: `make([]int32, Count)`, then the loop. */
    function ReadBlocks(h: Step<seq<Value>>): ReadResult<BlockChangeMulti>
    {
      var p := this.(x := I32At(h.value, 0), z := I32At(h.value, 1), count := I16At(h.value, 2), length := I32At(h.value, 3));
      if p.count < 0 then Result(p, In(Raise(h.st.rw, MakeSlice), h.st.rest))
      else
        var s := ReadFields(Repeat(KInt(4), p.count), h.st);
        Result(p.(blocks := Int32s(s.value)), s.st)
    }

    function WriteTo(sink: Sink, orders: seq<seq<Byte>>): Out
      requires |orders| == |Fields()|
    {
      WritePacket(sink, Id(), Fields(), orders)
    }

    /** A packet whose count is its number of records reads back as itself. */
    lemma RoundTrip(r: BlockChangeMulti, orders: seq<seq<Byte>>, tail: seq<Byte>)
      requires |orders| == |Fields()| && count as int == |blocks|
      ensures var o := WriteTo(Sink([], false), orders);
        Delivered(o, Id()) && r.ReadFrom(o.sink.out[1..] + tail) == ReadResult(this, o.rw.n - 1, None, tail)
    {
      Written(orders, tail);
      var o := WriteTo(Sink([], false), orders);
      Int32sRoundTrip(blocks);
      ReadsBack(r, o.sink.out[1..] + tail, ReadBacks(Int32Values(blocks)), In(RW(o.rw.n - 1, None), tail));
    }

    /** A packet sent with a negative count makes the reader panic in `make`. */
    lemma NegativeCountPanics(r: BlockChangeMulti, orders: seq<seq<Byte>>, tail: seq<Byte>)
      requires |orders| == |Fields()| && count < 0
      ensures var o := WriteTo(Sink([], false), orders);
        Delivered(o, Id()) && r.ReadFrom(o.sink.out[1..] + tail).err == Some(Panic(MakeSlice))
    {
      Written(orders, tail);
      var o := WriteTo(Sink([], false), orders);
      PanicsOn(r, o.sink.out[1..] + tail, Repeat(KInt(4), |blocks|), ReadBacks(Int32Values(blocks)), In(RW(o.rw.n - 1, None), tail));
    }

    /** What `WriteTo` puts out reads as the header and then the records. */
    lemma Written(orders: seq<seq<Byte>>, tail: seq<Byte>)
      requires |orders| == |Fields()|
      ensures var o := WriteTo(Sink([], false), orders);
        Delivered(o, Id()) &&
        ReadsAs(o.sink.out[1..] + tail, Head(), HeadValues(), Repeat(KInt(4), |blocks|), ReadBacks(Int32Values(blocks)),
                In(RW(o.rw.n - 1, None), tail))
    {
      FieldsValid(orders);
      HeadKinds();
      HeadReadBack();
      Int32sRoundTrip(blocks);
      SplitRoundTrip(Id(), HeadValues(), Int32Values(blocks), orders, tail,
                     Head(), HeadValues(), Repeat(KInt(4), |blocks|), ReadBacks(Int32Values(blocks)));
    }

    lemma HeadKinds()
      ensures KindsOf(HeadValues()) == Head()
    {
    }

    lemma HeadReadBack()
      ensures ReadBacks(HeadValues()) == HeadValues()
    {
      assert Plain(HeadValues());
      PlainReadBack(HeadValues());
    }

    lemma PanicsOn(r: BlockChangeMulti, input: seq<Byte>, rl: seq<Kind>, rv: seq<Value>, st: In)
      requires count < 0 && ReadsAs(input, Head(), HeadValues(), rl, rv, st)
      ensures r.ReadFrom(input).err == Some(Panic(MakeSlice))
    {
    }

    lemma FieldsValid(orders: seq<seq<Byte>>)
      requires |orders| == |Fields()|
      ensures AllValid(Fields(), orders)
    {
    }

    /** What the receiver makes of an input whose header and records read as written. */
    lemma ReadsBack(r: BlockChangeMulti, input: seq<Byte>, vs: seq<Value>, st: In)
      requires count as int == |blocks| && Int32s(vs) == blocks
      requires ReadsAs(input, Head(), HeadValues(), Repeat(KInt(4), |blocks|), vs, st)
      ensures r.ReadFrom(input) == Result(this, st)
    {
    }

    /** `ReadFrom` on a stream: the header, then the loop over the records. */
    method Read(r: Reader) returns (p: BlockChangeMulti, n: int, err: Option<Error>)
      modifies r
      ensures ReadResult(p, n, err, r.rest) == ReadFrom(old(r.rest))
    {
      var rw := new ReadWriter();
      var vs := ReadFieldsFrom(rw, Head(), r);
      p, n, err := ReadBlocksFrom(rw, r, vs);
    }

    /** `ReadBlocks` on a stream, after the header `vs`. */
    method ReadBlocksFrom(rw: ReadWriter, r: Reader, vs: seq<Value>) returns (p: BlockChangeMulti, n: int, err: Option<Error>)
      modifies rw, r
      ensures ReadResult(p, n, err, r.rest) == ReadBlocks(Step(vs, In(old(rw.State()), old(r.rest))))
    {
      p := this.(x := I32At(vs, 0), z := I32At(vs, 1), count := I16At(vs, 2), length := I32At(vs, 3));
      if p.count < 0 {
        rw.Crash(MakeSlice);
      } else {
        var s := ReadFieldsFrom(rw, Repeat(KInt(4), p.count), r);
        p := p.(blocks := Int32s(s));
      }
      n, err := rw.Result();
    }
  }

  /** `BlockChange`, packet 0x35. */
  datatype BlockChange = BlockChange(x: Int32, y: Byte, z: Int32, blockType: Int16, blockMeta: Int8)
  {
    function Id(): Byte { 0x35 }

    /** The kinds `ReadFrom` reads, in order. */
    static function Layout(): seq<Kind> { [KInt(4), KInt(1), KInt(4), KInt(2), KInt(1)] }

    /** The fields `WriteTo` writes after the id, in order. */
    function Fields(): seq<Value> { [VInt(4, x), VInt(1, AsInt8(y)), VInt(4, z), VInt(2, blockType), VInt(1, blockMeta)] }

    /** The receiver once `ReadFrom` has stored the values read. */
    function Fill(vs: seq<Value>): BlockChange { BlockChange(I32At(vs, 0), AsByte(I8At(vs, 1)), I32At(vs, 2), I16At(vs, 3), I8At(vs, 4)) }

    function ReadFrom(input: seq<Byte>): ReadResult<BlockChange>
    {
      var s := ReadFields(Layout(), In(Fresh, input));
      Result(Fill(s.value), s.st)
    }

    function WriteTo(sink: Sink, orders: seq<seq<Byte>>): Out
      requires |orders| == |Fields()|
    {
      WritePacket(sink, Id(), Fields(), orders)
    }

    /**
     * `WriteTo` puts out the id and then bytes from which any receiver's
     * `ReadFrom` gets the packet back.
     */
    lemma RoundTrip(r: BlockChange, orders: seq<seq<Byte>>, tail: seq<Byte>)
      requires |orders| == |Fields()| && AllValid(Fields(), orders)
      ensures var o := WriteTo(Sink([], false), orders);
        Delivered(o, Id()) && r.ReadFrom(o.sink.out[1..] + tail) == ReadResult(this, o.rw.n - 1, None, tail)
    {
      LayoutOfFields();
      ReadBackFill(r);
      FlatRoundTrip(Id(), Layout(), Fields(), orders, tail, r.Fill, this);
    }

    /** `WriteTo` writes the kinds `ReadFrom` reads. */
    lemma LayoutOfFields()
      ensures KindsOf(Fields()) == Layout()
    {
    }

    /** The values written, once read back, fill any receiver with the packet. */
    lemma ReadBackFill(r: BlockChange)
      ensures r.Fill(ReadBacks(Fields())) == this
    {
    }
  }

  /** `BlockAction`, packet 0x36. */
  datatype BlockAction = BlockAction(x: Int32, y: Int16, z: Int32, byte1: Int8, byte2: Int8, blockId: Int16)
  {
    function Id(): Byte { 0x36 }

    /** The kinds `ReadFrom` reads, in order. */
    static function Layout(): seq<Kind> { [KInt(4), KInt(2), KInt(4), KInt(1), KInt(1), KInt(2)] }

    /** The fields `WriteTo` writes after the id, in order. */
    function Fields(): seq<Value> { [VInt(4, x), VInt(2, y), VInt(4, z), VInt(1, byte1), VInt(1, byte2), VInt(2, blockId)] }

    /** The receiver once `ReadFrom` has stored the values read. */
    function Fill(vs: seq<Value>): BlockAction { BlockAction(I32At(vs, 0), I16At(vs, 1), I32At(vs, 2), I8At(vs, 3), I8At(vs, 4), I16At(vs, 5)) }

    function ReadFrom(input: seq<Byte>): ReadResult<BlockAction>
    {
      var s := ReadFields(Layout(), In(Fresh, input));
      Result(Fill(s.value), s.st)
    }

    function WriteTo(sink: Sink, orders: seq<seq<Byte>>): Out
      requires |orders| == |Fields()|
    {
      WritePacket(sink, Id(), Fields(), orders)
    }

    /**
     * `WriteTo` puts out the id and then bytes from which any receiver's
     * `ReadFrom` gets the packet back.
     */
    lemma RoundTrip(r: BlockAction, orders: seq<seq<Byte>>, tail: seq<Byte>)
      requires |orders| == |Fields()| && AllValid(Fields(), orders)
      ensures var o := WriteTo(Sink([], false), orders);
        Delivered(o, Id()) && r.ReadFrom(o.sink.out[1..] + tail) == ReadResult(this, o.rw.n - 1, None, tail)
    {
      LayoutOfFields();
      ReadBackFill(r);
      FlatRoundTrip(Id(), Layout(), Fields(), orders, tail, r.Fill, this);
    }

    /** `WriteTo` writes the kinds `ReadFrom` reads. */
    lemma LayoutOfFields()
      ensures KindsOf(Fields()) == Layout()
    {
    }

    /** The values written, once read back, fill any receiver with the packet. */
    lemma ReadBackFill(r: BlockAction)
      ensures r.Fill(ReadBacks(Fields())) == this
    {
    }
  }

  /** `BlockBreakAnimation`, packet 0x37. */
  datatype BlockBreakAnimation = BlockBreakAnimation(entity: Int32, x: Int32, y: Int32, z: Int32, damage: Int8)
  {
    function Id(): Byte { 0x37 }

    /** The kinds `ReadFrom` reads, in order. */
    static function Layout(): seq<Kind> { [KInt(4), KInt(4), KInt(4), KInt(4), KInt(1)] }

    /** The fields `WriteTo` writes after the id, in order. */
    function Fields(): seq<Value> { [VInt(4, entity), VInt(4, x), VInt(4, y), VInt(4, z), VInt(1, damage)] }

    /** The receiver once `ReadFrom` has stored the values read. */
    function Fill(vs: seq<Value>): BlockBreakAnimation { BlockBreakAnimation(I32At(vs, 0), I32At(vs, 1), I32At(vs, 2), I32At(vs, 3), I8At(vs, 4)) }

    function ReadFrom(input: seq<Byte>): ReadResult<BlockBreakAnimation>
    {
      var s := ReadFields(Layout(), In(Fresh, input));
      Result(Fill(s.value), s.st)
    }

    function WriteTo(sink: Sink, orders: seq<seq<Byte>>): Out
      requires |orders| == |Fields()|
    {
      WritePacket(sink, Id(), Fields(), orders)
    }

    /**
     * `WriteTo` puts out the id and then bytes from which any receiver's
     * `ReadFrom` gets the packet back.
     */
    lemma RoundTrip(r: BlockBreakAnimation, orders: seq<seq<Byte>>, tail: seq<Byte>)
      requires |orders| == |Fields()| && AllValid(Fields(), orders)
      ensures var o := WriteTo(Sink([], false), orders);
        Delivered(o, Id()) && r.ReadFrom(o.sink.out[1..] + tail) == ReadResult(this, o.rw.n - 1, None, tail)
    {
      LayoutOfFields();
      ReadBackFill(r);
      FlatRoundTrip(Id(), Layout(), Fields(), orders, tail, r.Fill, this);
    }

    /** `WriteTo` writes the kinds `ReadFrom` reads. */
    lemma LayoutOfFields()
      ensures KindsOf(Fields()) == Layout()
    {
    }

    /** The values written, once read back, fill any receiver with the packet. */
    lemma ReadBackFill(r: BlockBreakAnimation)
      ensures r.Fill(ReadBacks(Fields())) == this
    {
    }
  }

  /**
   * `MapChunkBulk`, packet 0x38: a meta count, a data length, the skylight
   * flag, the compressed chunk data and the chunk metas. The write derives
   * both counts from the slices it holds.
   */
  datatype MapChunkBulk = MapChunkBulk(skylightSent: bool, chunkData: seq<Byte>, chunkMeta: seq<ChunkMeta>)
  {
    function Id(): Byte { 0x38 }

    /** `Count`, `Length` and the skylight flag, read first. */
    static function Head(): seq<Kind> { [KInt(2), KInt(4), KBool] }

    /** The counts as they are written: the slice lengths, converted to `int16` and `int32`. */
    function HeadValues(): seq<Value> { [VInt(2, Wrap(|chunkMeta|, 2)), VInt(4, Wrap(|chunkData|, 4)), VBool(skylightSent)] }

    /** The chunk data and then the metas. */
    function RunValues(): seq<Value> { [VRaw(|chunkData|, chunkData)] + MetaValues(chunkMeta) }

    function RunLayout(): seq<Kind> { [KRaw(|chunkData|)] + MetaLayout(|chunkMeta|) }

    function Fields(): seq<Value> { HeadValues() + RunValues() }

    /** The receiver once the header and the chunk data are read. */
    function StoreHead(vs: seq<Value>, data: seq<Byte>): MapChunkBulk
    {
      this.(skylightSent := BoolAt(vs, 2), chunkData := data)
    }

    /**
     * The header, the `Length` data bytes, then the metas. This is the read
     * the rest of the model relies on; `ReadFromAsWritten` is the source's own.
     */
    function ReadFrom(input: seq<Byte>): ReadResult<MapChunkBulk>
    {
      var h := ReadFields(Head(), In(Fresh, input));
      var d := ReadByteArray(h.st, I32At(h.value, 1));
      ReadMetas(StoreHead(h.value, d.value), I16At(h.value, 0), d.st)
    }

    /**
     * The slice made with `Count` entries and filled by the loop: a negative
     * count panics in `make` and leaves the receiver's metas in place.
     */
    static function ReadMetas(p: MapChunkBulk, count: Int16, st: In): ReadResult<MapChunkBulk>
    {
      if count < 0 then Result(p, In(Raise(st.rw, MakeSlice), st.rest))
      else
        var s := ReadFields(MetaLayout(count), st);
        Result(p.(chunkMeta := Metas(s.value)), s.st)
    }

    /** The source's read: as `ReadFrom`, but the metas are read by `ReadMetasAsWritten`. */
    function ReadFromAsWritten(input: seq<Byte>): ReadResult<MapChunkBulk>
    {
      var h := ReadFields(Head(), In(Fresh, input));
      var d := ReadByteArray(h.st, I32At(h.value, 1));
      ReadMetasAsWritten(StoreHead(h.value, d.value), I16At(h.value, 0), I32At(h.value, 1), d.st)
    }

    /**
     * The source's loop: the slice is made with `Length` entries, not
     * `Count`. A negative length panics in `make`; a count up to the length
     * leaves zero metas after those read; a count past the length reads
     * `Length` metas and then panics on the first index past the slice.
     */
    static function ReadMetasAsWritten(p: MapChunkBulk, count: Int16, length: Int32, st: In): ReadResult<MapChunkBulk>
    {
      if length < 0 then Result(p, In(Raise(st.rw, MakeSlice), st.rest))
      else if count <= length then
        var c := if count < 0 then 0 else count;
        var s := ReadFields(MetaLayout(c), st);
        Result(p.(chunkMeta := Metas(s.value) + ZeroMetas(length - c)), s.st)
      else
        var s := ReadFields(MetaLayout(length), st);
        Result(p.(chunkMeta := Metas(s.value)), In(Raise(s.st.rw, IndexOutOfRange), s.st.rest))
    }

    function WriteTo(sink: Sink, orders: seq<seq<Byte>>): Out
      requires |orders| == |Fields()|
    {
      WritePacket(sink, Id(), Fields(), orders)
    }

    /** Fewer than 0x8000 metas and 0x8000_0000 data bytes read back as themselves. */
    lemma RoundTrip(r: MapChunkBulk, orders: seq<seq<Byte>>, tail: seq<Byte>)
      requires |orders| == |Fields()| && |chunkMeta| < 0x8000 && |chunkData| < 0x8000_0000
      ensures var o := WriteTo(Sink([], false), orders);
        Delivered(o, Id()) && r.ReadFrom(o.sink.out[1..] + tail) == ReadResult(this, o.rw.n - 1, None, tail)
    {
      Written(orders, tail);
      var o := WriteTo(Sink([], false), orders);
      HeadRead(o.sink.out[1..] + tail, In(RW(o.rw.n - 1, None), tail));
      ReadsBack(r, o.sink.out[1..] + tail, In(RW(o.rw.n - 1, None), tail));
    }

    /**
     * With the source's read, more metas than data bytes end in a panic: the
     * loop indexes past the slice `make` gave it.
     */
    lemma MetasPastDataPanic(r: MapChunkBulk, orders: seq<seq<Byte>>, tail: seq<Byte>)
      requires |orders| == |Fields()| && |chunkData| < |chunkMeta| < 0x8000
      ensures var o := WriteTo(Sink([], false), orders);
        Delivered(o, Id()) && r.ReadFromAsWritten(o.sink.out[1..] + tail).err == Some(Error.Panic(IndexOutOfRange))
    {
      Written(orders, tail);
      var o := WriteTo(Sink([], false), orders);
      HeadRead(o.sink.out[1..] + tail, In(RW(o.rw.n - 1, None), tail));
      PanicsAsWritten(r, o.sink.out[1..] + tail, In(RW(o.rw.n - 1, None), tail));
    }

    /**
     * With the source's read, fewer metas than data bytes come back padded
     * with zero metas up to the number of data bytes.
     */
    lemma DataPastMetasPads(r: MapChunkBulk, orders: seq<seq<Byte>>, tail: seq<Byte>)
      requires |orders| == |Fields()| && |chunkMeta| <= |chunkData| < 0x8000_0000 && |chunkMeta| < 0x8000
      ensures var o := WriteTo(Sink([], false), orders);
        Delivered(o, Id()) &&
        r.ReadFromAsWritten(o.sink.out[1..] + tail) ==
          ReadResult(this.(chunkMeta := chunkMeta + ZeroMetas(|chunkData| - |chunkMeta|)), o.rw.n - 1, None, tail)
    {
      Written(orders, tail);
      var o := WriteTo(Sink([], false), orders);
      HeadRead(o.sink.out[1..] + tail, In(RW(o.rw.n - 1, None), tail));
      PadsAsWritten(r, o.sink.out[1..] + tail, In(RW(o.rw.n - 1, None), tail));
    }

    /** One meta and no data: the source's read panics where the corrected read gives the packet back. */
    lemma OneMetaNoData(r: MapChunkBulk, orders: seq<seq<Byte>>, tail: seq<Byte>)
      requires this == MapChunkBulk(false, [], [ChunkMeta(0, 0, 0, 0)]) && |orders| == |Fields()|
      ensures var o := WriteTo(Sink([], false), orders);
        Delivered(o, Id()) && r.ReadFromAsWritten(o.sink.out[1..] + tail).err.Some? && r.ReadFrom(o.sink.out[1..] + tail).packet == this
    {
      MetasPastDataPanic(r, orders, tail);
      RoundTrip(r, orders, tail);
    }

    /** What `WriteTo` puts out reads as the header, then the data and the metas. */
    lemma Written(orders: seq<seq<Byte>>, tail: seq<Byte>)
      requires |orders| == |Fields()|
      ensures var o := WriteTo(Sink([], false), orders);
        Delivered(o, Id()) &&
        ReadsAs(o.sink.out[1..] + tail, Head(), HeadValues(), RunLayout(), RunValues(), In(RW(o.rw.n - 1, None), tail))
    {
      FieldsValid(orders);
      PlainReadBack(HeadValues());
      RunReadBack();
      SplitRoundTrip(Id(), HeadValues(), RunValues(), orders, tail, Head(), HeadValues(), RunLayout(), RunValues());
    }

    lemma FieldsValid(orders: seq<seq<Byte>>)
      requires |orders| == |Fields()|
      ensures AllValid(Fields(), orders)
    {
    }

    /** The run is written in the run layout and reads back as itself. */
    lemma RunReadBack()
      ensures KindsOf(RunValues()) == RunLayout() && ReadBacks(RunValues()) == RunValues()
    {
      MetasRoundTrip(chunkMeta);
      PlainReadBack(RunValues());
    }

    /** How the run layout reads: the data bytes first, then the metas. */
    lemma RunReads(st: In)
      ensures ReadFields(RunLayout(), st) ==
        var d := ReadByteArray(st, |chunkData|);
        var s := ReadFields(MetaLayout(|chunkMeta|), d.st);
        Step([VRaw(|chunkData|, d.value)] + s.value, s.st)
    {
      ReadFieldsCons(RunLayout(), st);
      assert RunLayout()[1..] == MetaLayout(|chunkMeta|);
    }

    /** The header of an input that holds it as written, and the run after it. */
    predicate HeadReads(input: seq<Byte>, st: In)
    {
      var h := ReadFields(Head(), In(Fresh, input));
      I16At(h.value, 0) == Wrap(|chunkMeta|, 2) && I32At(h.value, 1) == Wrap(|chunkData|, 4) &&
      BoolAt(h.value, 2) == skylightSent && h.st.rw.err.None? && ReadFields(RunLayout(), h.st) == Step(RunValues(), st)
    }

    lemma HeadRead(input: seq<Byte>, st: In)
      requires ReadsAs(input, Head(), HeadValues(), RunLayout(), RunValues(), st)
      ensures HeadReads(input, st)
    {
      var h := ReadFields(Head(), In(Fresh, input));
      assert h.value == HeadValues();
    }

    /** The data bytes and the metas, read where the run is as written. */
    lemma RunParts(from: In, st: In) returns (d: Step<seq<Byte>>, s: Step<seq<Value>>)
      requires from.rw.err.None? && ReadFields(RunLayout(), from) == Step(RunValues(), st)
      ensures d == ReadByteArray(from, |chunkData|) && d.value == chunkData && NoPanic(d.st.rw)
      ensures s == ReadFields(MetaLayout(|chunkMeta|), d.st) && Metas(s.value) == chunkMeta && s.st == st
    {
      RunReads(from);
      d := ReadByteArray(from, |chunkData|);
      s := ReadFields(MetaLayout(|chunkMeta|), d.st);
      assert [VRaw(|chunkData|, d.value)] + s.value == RunValues();
      assert s.value == RunValues()[1..] == MetaValues(chunkMeta);
      MetasRoundTrip(chunkMeta);
      assert d.value == chunkData;
    }

    /** What the receiver makes of an input whose header and run read as written. */
    lemma ReadsBack(r: MapChunkBulk, input: seq<Byte>, st: In)
      requires |chunkMeta| < 0x8000 && |chunkData| < 0x8000_0000
      requires HeadReads(input, st)
      ensures r.ReadFrom(input) == Result(this, st)
    {
      var h := ReadFields(Head(), In(Fresh, input));
      var d, s := RunParts(h.st, st);
      assert r.StoreHead(h.value, d.value) == this.(chunkMeta := r.chunkMeta);
    }

    lemma PanicsAsWritten(r: MapChunkBulk, input: seq<Byte>, st: In)
      requires |chunkData| < |chunkMeta| < 0x8000
      requires HeadReads(input, st)
      ensures r.ReadFromAsWritten(input).err == Some(Error.Panic(IndexOutOfRange))
    {
      var h := ReadFields(Head(), In(Fresh, input));
      var d, s := RunParts(h.st, st);
      MetaLayoutNoPanic(|chunkData|, d.st);
    }

    lemma PadsAsWritten(r: MapChunkBulk, input: seq<Byte>, st: In)
      requires |chunkMeta| <= |chunkData| < 0x8000_0000 && |chunkMeta| < 0x8000
      requires HeadReads(input, st)
      ensures r.ReadFromAsWritten(input) == Result(this.(chunkMeta := chunkMeta + ZeroMetas(|chunkData| - |chunkMeta|)), st)
    {
      var h := ReadFields(Head(), In(Fresh, input));
      HeadCounts(input, st);
      var d, s := RunParts(h.st, st);
      AsWrittenParts(r, input);
      var p0 := r.StoreHead(h.value, d.value);
      assert p0 == this.(chunkMeta := p0.chunkMeta);
      PadsLoop(p0, chunkMeta, |chunkData|, d.st, s);
      SameChunkMeta(p0, this, chunkMeta + ZeroMetas(|chunkData| - |chunkMeta|));
    }

    /** The header read back carries the meta count and the data length. */
    lemma HeadCounts(input: seq<Byte>, st: In)
      requires |chunkData| < 0x8000_0000 && |chunkMeta| < 0x8000
      requires HeadReads(input, st)
      ensures var h := ReadFields(Head(), In(Fresh, input));
        I16At(h.value, 0) == |chunkMeta| && I32At(h.value, 1) == |chunkData|
    {
      FitsWidths(|chunkMeta|);
      FitsWidths(|chunkData|);
    }

    /** Two records that differ at most in their metas agree once the metas are set. */
    static lemma SameChunkMeta(p: MapChunkBulk, q: MapChunkBulk, ms: seq<ChunkMeta>)
      requires p == q.(chunkMeta := p.chunkMeta)
      ensures p.(chunkMeta := ms) == q.(chunkMeta := ms)
    {
    }

    /** `ReadFromAsWritten` in its three parts: the header, the data, the loop. */
    static lemma AsWrittenParts(r: MapChunkBulk, input: seq<Byte>)
      ensures var h := ReadFields(Head(), In(Fresh, input));
        var d := ReadByteArray(h.st, I32At(h.value, 1));
        r.ReadFromAsWritten(input) == ReadMetasAsWritten(r.StoreHead(h.value, d.value), I16At(h.value, 0), I32At(h.value, 1), d.st)
    {
    }

    /** The source's loop, for a count up to the length: the metas read, then zero metas. */
    static lemma PadsLoop(p: MapChunkBulk, ms: seq<ChunkMeta>, length: nat, st: In, s: Step<seq<Value>>)
      requires |ms| <= length < 0x8000_0000 && |ms| < 0x8000
      requires ReadFields(MetaLayout(|ms|), st) == s && Metas(s.value) == ms
      ensures ReadMetasAsWritten(p, |ms|, length, st) == Result(p.(chunkMeta := ms + ZeroMetas(length - |ms|)), s.st)
    {
    }

    /** `ReadFrom` on a stream: the header, the data, then the loop over the metas. */
    method Read(r: Reader) returns (p: MapChunkBulk, n: int, err: Option<Error>)
      modifies r
      ensures ReadResult(p, n, err, r.rest) == ReadFrom(old(r.rest))
    {
      var rw := new ReadWriter();
      var h := ReadFieldsFrom(rw, Head(), r);
      var count := I16At(h, 0);
      var data := rw.ReadBytes(r, I32At(h, 1));
      p := StoreHead(h, data);
      if count < 0 {
        rw.Crash(MakeSlice);
      } else {
        var s := ReadFieldsFrom(rw, MetaLayout(count), r);
        p := p.(chunkMeta := Metas(s));
      }
      n, err := rw.Result();
    }
  }

  /**
   * `Explosion`, packet 0x3C: the centre and radius, a count, that many block
   * records of three `int8` offsets, and the player's motion. The write sends
   * every record it holds after the `Count` field, whatever that field says.
   */
  datatype Explosion = Explosion(x: Float64Bits, y: Float64Bits, z: Float64Bits, radius: Float32Bits, count: Int32,
                                 blocks: seq<BlockRecord>, playerX: Float32Bits, playerY: Float32Bits, playerZ: Float32Bits)
  {
    function Id(): Byte { 0x3C }

    static function Head(): seq<Kind> { [KFloat(8), KFloat(8), KFloat(8), KFloat(4), KInt(4)] }

    /** The records a count announces, then the player's motion. */
    static function Run(count: nat): seq<Kind> { RecordLayout(count) + [KFloat(4), KFloat(4), KFloat(4)] }

    function HeadValues(): seq<Value> { [VFloat(8, x), VFloat(8, y), VFloat(8, z), VFloat(4, radius), VInt(4, count)] }

    function RunValues(): seq<Value> { RecordValues(blocks) + [VFloat(4, playerX), VFloat(4, playerY), VFloat(4, playerZ)] }

    function Fields(): seq<Value> { HeadValues() + RunValues() }

    /**
     * The header, then `make([][3]int8, Count)`, which panics for a negative
     * count and leaves the rest of the receiver in place; otherwise the
     * records and the motion read replace the receiver's.
     */
    function ReadFrom(input: seq<Byte>): ReadResult<Explosion>
    {
      ReadRecords(ReadFields(Head(), In(Fresh, input)))
    }

    /** What follows the header `h`: `make([]Record, Count)`, the loop, then the speeds. */
    function ReadRecords(h: Step<seq<Value>>): ReadResult<Explosion>
    {
      var p := StoreHead(h.value);
      if p.count < 0 then Result(p, In(Raise(h.st.rw, MakeSlice), h.st.rest))
      else
        var s := ReadFields(Run(p.count), h.st);
        Result(p.StoreRun(s.value), s.st)
    }

    /** The receiver once the header values are stored. */
    function StoreHead(vs: seq<Value>): Explosion
    {
      this.(x := F64At(vs, 0), y := F64At(vs, 1), z := F64At(vs, 2), radius := F32At(vs, 3), count := I32At(vs, 4))
    }

    /** The receiver once the records and the motion are stored. */
    function StoreRun(vs: seq<Value>): Explosion
      requires 0 <= count && |vs| == |Run(count)|
    {
      var k := 3 * count;
      this.(blocks := Records(vs[..k]), playerX := F32At(vs, k), playerY := F32At(vs, k + 1), playerZ := F32At(vs, k + 2))
    }

    function WriteTo(sink: Sink, orders: seq<seq<Byte>>): Out
      requires |orders| == |Fields()|
    {
      WritePacket(sink, Id(), Fields(), orders)
    }

    /** A packet whose count is its number of records reads back as itself. */
    lemma RoundTrip(r: Explosion, orders: seq<seq<Byte>>, tail: seq<Byte>)
      requires |orders| == |Fields()| && AllValid(Fields(), orders) && count as int == |blocks|
      ensures var o := WriteTo(Sink([], false), orders);
        Delivered(o, Id()) && r.ReadFrom(o.sink.out[1..] + tail) == ReadResult(this, o.rw.n - 1, None, tail)
    {
      Written(orders, tail);
      var o := WriteTo(Sink([], false), orders);
      ReadsBack(r, o.sink.out[1..] + tail, In(RW(o.rw.n - 1, None), tail));
    }

    /** A packet sent with a negative count makes the reader panic in `make`. */
    lemma NegativeCountPanics(r: Explosion, orders: seq<seq<Byte>>, tail: seq<Byte>)
      requires |orders| == |Fields()| && AllValid(Fields(), orders) && count < 0
      ensures var o := WriteTo(Sink([], false), orders);
        Delivered(o, Id()) && r.ReadFrom(o.sink.out[1..] + tail).err == Some(Panic(MakeSlice))
    {
      Written(orders, tail);
      var o := WriteTo(Sink([], false), orders);
      PanicsOn(r, o.sink.out[1..] + tail, Run(|blocks|), RunValues(), In(RW(o.rw.n - 1, None), tail));
    }

    /** What `WriteTo` puts out reads as the header, then the records and the motion. */
    lemma Written(orders: seq<seq<Byte>>, tail: seq<Byte>)
      requires |orders| == |Fields()| && AllValid(Fields(), orders)
      ensures var o := WriteTo(Sink([], false), orders);
        Delivered(o, Id()) && ReadsAs(o.sink.out[1..] + tail, Head(), HeadValues(), Run(|blocks|), RunValues(), In(RW(o.rw.n - 1, None), tail))
    {
      HeadLayout();
      RunLayout();
      SplitRoundTrip(Id(), HeadValues(), RunValues(), orders, tail, Head(), HeadValues(), Run(|blocks|), RunValues());
    }

    lemma HeadLayout()
      ensures KindsOf(HeadValues()) == Head() && ReadBacks(HeadValues()) == HeadValues()
    {
      assert Plain(HeadValues());
      PlainReadBack(HeadValues());
    }

    lemma RunLayout()
      ensures KindsOf(RunValues()) == Run(|blocks|) && ReadBacks(RunValues()) == RunValues()
    {
      RecordsRoundTrip(blocks);
      var rv := RecordValues(blocks);
      var mv := [VFloat(4, playerX), VFloat(4, playerY), VFloat(4, playerZ)];
      assert RunValues() == rv + mv;
      KindsAppend(rv, mv);
      assert KindsOf(mv) == [KFloat(4), KFloat(4), KFloat(4)];
      PlainAppend(rv, mv);
      PlainReadBack(rv + mv);
    }

    /** The read-back run splits into the records and the motion. */
    lemma RunRecords()
      ensures var k := 3 * |blocks|;
        RunValues()[..k] == RecordValues(blocks) && Records(RunValues()[..k]) == blocks &&
        F32At(RunValues(), k) == playerX && F32At(RunValues(), k + 1) == playerY && F32At(RunValues(), k + 2) == playerZ
    {
      RecordsRoundTrip(blocks);
      assert RunValues()[..3 * |blocks|] == RecordValues(blocks);
    }

    lemma PanicsOn(r: Explosion, input: seq<Byte>, rl: seq<Kind>, rv: seq<Value>, st: In)
      requires count < 0 && ReadsAs(input, Head(), HeadValues(), rl, rv, st)
      ensures r.ReadFrom(input).err == Some(Panic(MakeSlice))
    {
    }

    /** What the receiver makes of an input whose header, records and motion read as written. */
    lemma ReadsBack(r: Explosion, input: seq<Byte>, st: In)
      requires count as int == |blocks|
      requires ReadsAs(input, Head(), HeadValues(), Run(|blocks|), RunValues(), st)
      ensures r.ReadFrom(input) == Result(this, st)
    {
      Stores(r);
    }

    /** Storing the values written into any receiver gives the packet. */
    lemma Stores(r: Explosion)
      requires count as int == |blocks|
      ensures r.StoreHead(HeadValues()).count == count
      ensures r.StoreHead(HeadValues()).StoreRun(RunValues()) == this
    {
      RunRecords();
      var p := r.StoreHead(HeadValues());
      assert p == this.(blocks := r.blocks, playerX := r.playerX, playerY := r.playerY, playerZ := r.playerZ);
    }

    /** `ReadFrom` on a stream: the header, the loop over the records, then the motion. */
    method Read(r: Reader) returns (p: Explosion, n: int, err: Option<Error>)
      modifies r
      ensures ReadResult(p, n, err, r.rest) == ReadFrom(old(r.rest))
    {
      var rw := new ReadWriter();
      var vs := ReadFieldsFrom(rw, Head(), r);
      p, n, err := ReadRecordsFrom(rw, r, vs);
    }

    /** `ReadRecords` on a stream, after the header `vs`. */
    method ReadRecordsFrom(rw: ReadWriter, r: Reader, vs: seq<Value>) returns (p: Explosion, n: int, err: Option<Error>)
      modifies rw, r
      ensures ReadResult(p, n, err, r.rest) == ReadRecords(Step(vs, In(old(rw.State()), old(r.rest))))
    {
      p := StoreHead(vs);
      if p.count < 0 {
        rw.Crash(MakeSlice);
      } else {
        var s := ReadFieldsFrom(rw, Run(p.count), r);
        p := p.StoreRun(s);
      }
      n, err := rw.Result();
    }
  }

  /** `SoundEffect`, packet 0x3D. */
  datatype SoundEffect = SoundEffect(effectId: Int32, x: Int32, y: Int8, z: Int32, data: Int32, disableRelVolume: bool)
  {
    function Id(): Byte { 0x3D }

    /** The kinds `ReadFrom` reads, in order. */
    static function Layout(): seq<Kind> { [KInt(4), KInt(4), KInt(1), KInt(4), KInt(4), KBool] }

    /** The fields `WriteTo` writes after the id, in order. */
    function Fields(): seq<Value> { [VInt(4, effectId), VInt(4, x), VInt(1, y), VInt(4, z), VInt(4, data), VBool(disableRelVolume)] }

    /** The receiver once `ReadFrom` has stored the values read. */
    function Fill(vs: seq<Value>): SoundEffect { SoundEffect(I32At(vs, 0), I32At(vs, 1), I8At(vs, 2), I32At(vs, 3), I32At(vs, 4), BoolAt(vs, 5)) }

    function ReadFrom(input: seq<Byte>): ReadResult<SoundEffect>
    {
      var s := ReadFields(Layout(), In(Fresh, input));
      Result(Fill(s.value), s.st)
    }

    function WriteTo(sink: Sink, orders: seq<seq<Byte>>): Out
      requires |orders| == |Fields()|
    {
      WritePacket(sink, Id(), Fields(), orders)
    }

    /**
     * `WriteTo` puts out the id and then bytes from which any receiver's
     * `ReadFrom` gets the packet back.
     */
    lemma RoundTrip(r: SoundEffect, orders: seq<seq<Byte>>, tail: seq<Byte>)
      requires |orders| == |Fields()| && AllValid(Fields(), orders)
      ensures var o := WriteTo(Sink([], false), orders);
        Delivered(o, Id()) && r.ReadFrom(o.sink.out[1..] + tail) == ReadResult(this, o.rw.n - 1, None, tail)
    {
      LayoutOfFields();
      ReadBackFill(r);
      FlatRoundTrip(Id(), Layout(), Fields(), orders, tail, r.Fill, this);
    }

    /** `WriteTo` writes the kinds `ReadFrom` reads. */
    lemma LayoutOfFields()
      ensures KindsOf(Fields()) == Layout()
    {
    }

    /** The values written, once read back, fill any receiver with the packet. */
    lemma ReadBackFill(r: SoundEffect)
      ensures r.Fill(ReadBacks(Fields())) == this
    {
    }
  }

  /** `SoundEffectNamed`, packet 0x3E. */
  datatype SoundEffectNamed = SoundEffectNamed(name: string, x: Int32, y: Int32, z: Int32, volume: Float32Bits, pitch: Int8)
  {
    function Id(): Byte { 0x3E }

    /** The kinds `ReadFrom` reads, in order. */
    static function Layout(): seq<Kind> { [KString, KInt(4), KInt(4), KInt(4), KFloat(4), KInt(1)] }

    /** The fields `WriteTo` writes after the id, in order. */
    function Fields(): seq<Value> { [VString(name), VInt(4, x), VInt(4, y), VInt(4, z), VFloat(4, volume), VInt(1, pitch)] }

    /** The receiver once `ReadFrom` has stored the values read. */
    function Fill(vs: seq<Value>): SoundEffectNamed { SoundEffectNamed(StrAt(vs, 0), I32At(vs, 1), I32At(vs, 2), I32At(vs, 3), F32At(vs, 4), I8At(vs, 5)) }

    function ReadFrom(input: seq<Byte>): ReadResult<SoundEffectNamed>
    {
      var s := ReadFields(Layout(), In(Fresh, input));
      Result(Fill(s.value), s.st)
    }

    function WriteTo(sink: Sink, orders: seq<seq<Byte>>): Out
      requires |orders| == |Fields()|
    {
      WritePacket(sink, Id(), Fields(), orders)
    }

    /**
     * `WriteTo` puts out the id and then bytes from which any receiver's
     * `ReadFrom` gets the packet back.
     */
    lemma RoundTrip(r: SoundEffectNamed, orders: seq<seq<Byte>>, tail: seq<Byte>)
      requires |orders| == |Fields()| && AllValid(Fields(), orders)
      ensures var o := WriteTo(Sink([], false), orders);
        Delivered(o, Id()) && r.ReadFrom(o.sink.out[1..] + tail) == ReadResult(this, o.rw.n - 1, None, tail)
    {
      LayoutOfFields();
      ReadBackFill(r);
      FlatRoundTrip(Id(), Layout(), Fields(), orders, tail, r.Fill, this);
    }

    /** `WriteTo` writes the kinds `ReadFrom` reads. */
    lemma LayoutOfFields()
      ensures KindsOf(Fields()) == Layout()
    {
    }

    /** The values written, once read back, fill any receiver with the packet. */
    lemma ReadBackFill(r: SoundEffectNamed)
      ensures r.Fill(ReadBacks(Fields())) == this
    {
    }
  }

  /** `Particle`, packet 0x3F. */
  datatype Particle = Particle(name: string, x: Float32Bits, y: Float32Bits, z: Float32Bits, offsetX: Float32Bits, offsetY: Float32Bits, offsetZ: Float32Bits, speed: Float32Bits, number: Int32)
  {
    function Id(): Byte { 0x3F }

    /** The kinds `ReadFrom` reads, in order. */
    static function Layout(): seq<Kind> { [KString, KFloat(4), KFloat(4), KFloat(4), KFloat(4), KFloat(4), KFloat(4), KFloat(4), KInt(4)] }

    /** The fields `WriteTo` writes after the id, in order. */
    function Fields(): seq<Value> { [VString(name), VFloat(4, x), VFloat(4, y), VFloat(4, z), VFloat(4, offsetX), VFloat(4, offsetY), VFloat(4, offsetZ), VFloat(4, speed), VInt(4, number)] }

    /** The receiver once `ReadFrom` has stored the values read. */
    function Fill(vs: seq<Value>): Particle { Particle(StrAt(vs, 0), F32At(vs, 1), F32At(vs, 2), F32At(vs, 3), F32At(vs, 4), F32At(vs, 5), F32At(vs, 6), F32At(vs, 7), I32At(vs, 8)) }

    function ReadFrom(input: seq<Byte>): ReadResult<Particle>
    {
      var s := ReadFields(Layout(), In(Fresh, input));
      Result(Fill(s.value), s.st)
    }

    function WriteTo(sink: Sink, orders: seq<seq<Byte>>): Out
      requires |orders| == |Fields()|
    {
      WritePacket(sink, Id(), Fields(), orders)
    }

    /**
     * `WriteTo` puts out the id and then bytes from which any receiver's
     * `ReadFrom` gets the packet back.
     */
    lemma RoundTrip(r: Particle, orders: seq<seq<Byte>>, tail: seq<Byte>)
      requires |orders| == |Fields()| && AllValid(Fields(), orders)
      ensures var o := WriteTo(Sink([], false), orders);
        Delivered(o, Id()) && r.ReadFrom(o.sink.out[1..] + tail) == ReadResult(this, o.rw.n - 1, None, tail)
    {
      LayoutOfFields();
      ReadBackFill(r);
      FlatRoundTrip(Id(), Layout(), Fields(), orders, tail, r.Fill, this);
    }

    /** `WriteTo` writes the kinds `ReadFrom` reads. */
    lemma LayoutOfFields()
      ensures KindsOf(Fields()) == Layout()
    {
    }

    /** The values written, once read back, fill any receiver with the packet. */
    lemma ReadBackFill(r: Particle)
      ensures r.Fill(ReadBacks(Fields())) == this
    {
    }
  }

  /** `GameStateChange`, packet 0x46. */
  datatype GameStateChange = GameStateChange(reason: Int8, gameMode: Int8)
  {
    function Id(): Byte { 0x46 }

    /** The kinds `ReadFrom` reads, in order. */
    static function Layout(): seq<Kind> { [KInt(1), KInt(1)] }

    /** The fields `WriteTo` writes after the id, in order. */
    function Fields(): seq<Value> { [VInt(1, reason), VInt(1, gameMode)] }

    /** The receiver once `ReadFrom` has stored the values read. */
    function Fill(vs: seq<Value>): GameStateChange { GameStateChange(I8At(vs, 0), I8At(vs, 1)) }

    function ReadFrom(input: seq<Byte>): ReadResult<GameStateChange>
    {
      var s := ReadFields(Layout(), In(Fresh, input));
      Result(Fill(s.value), s.st)
    }

    function WriteTo(sink: Sink, orders: seq<seq<Byte>>): Out
      requires |orders| == |Fields()|
    {
      WritePacket(sink, Id(), Fields(), orders)
    }

    /**
     * `WriteTo` puts out the id and then bytes from which any receiver's
     * `ReadFrom` gets the packet back.
     */
    lemma RoundTrip(r: GameStateChange, orders: seq<seq<Byte>>, tail: seq<Byte>)
      requires |orders| == |Fields()| && AllValid(Fields(), orders)
      ensures var o := WriteTo(Sink([], false), orders);
        Delivered(o, Id()) && r.ReadFrom(o.sink.out[1..] + tail) == ReadResult(this, o.rw.n - 1, None, tail)
    {
      LayoutOfFields();
      ReadBackFill(r);
      FlatRoundTrip(Id(), Layout(), Fields(), orders, tail, r.Fill, this);
    }

    /** `WriteTo` writes the kinds `ReadFrom` reads. */
    lemma LayoutOfFields()
      ensures KindsOf(Fields()) == Layout()
    {
    }

    /** The values written, once read back, fill any receiver with the packet. */
    lemma ReadBackFill(r: GameStateChange)
      ensures r.Fill(ReadBacks(Fields())) == this
    {
    }
  }

  /** `EntityGlobalSpawn`, packet 0x47. */
  datatype EntityGlobalSpawn = EntityGlobalSpawn(entity: Int32, typ: Int8, x: Int32, y: Int32, z: Int32)
  {
    function Id(): Byte { 0x47 }

    /** The kinds `ReadFrom` reads, in order. */
    static function Layout(): seq<Kind> { [KInt(4), KInt(1), KInt(4), KInt(4), KInt(4)] }

    /** The fields `WriteTo` writes after the id, in order. */
    function Fields(): seq<Value> { [VInt(4, entity), VInt(1, typ), VInt(4, x), VInt(4, y), VInt(4, z)] }

    /** The receiver once `ReadFrom` has stored the values read. */
    function Fill(vs: seq<Value>): EntityGlobalSpawn { EntityGlobalSpawn(I32At(vs, 0), I8At(vs, 1), I32At(vs, 2), I32At(vs, 3), I32At(vs, 4)) }

    function ReadFrom(input: seq<Byte>): ReadResult<EntityGlobalSpawn>
    {
      var s := ReadFields(Layout(), In(Fresh, input));
      Result(Fill(s.value), s.st)
    }

    function WriteTo(sink: Sink, orders: seq<seq<Byte>>): Out
      requires |orders| == |Fields()|
    {
      WritePacket(sink, Id(), Fields(), orders)
    }

    /**
     * `WriteTo` puts out the id and then bytes from which any receiver's
     * `ReadFrom` gets the packet back.
     */
    lemma RoundTrip(r: EntityGlobalSpawn, orders: seq<seq<Byte>>, tail: seq<Byte>)
      requires |orders| == |Fields()| && AllValid(Fields(), orders)
      ensures var o := WriteTo(Sink([], false), orders);
        Delivered(o, Id()) && r.ReadFrom(o.sink.out[1..] + tail) == ReadResult(this, o.rw.n - 1, None, tail)
    {
      LayoutOfFields();
      ReadBackFill(r);
      FlatRoundTrip(Id(), Layout(), Fields(), orders, tail, r.Fill, this);
    }

    /** `WriteTo` writes the kinds `ReadFrom` reads. */
    lemma LayoutOfFields()
      ensures KindsOf(Fields()) == Layout()
    {
    }

    /** The values written, once read back, fill any receiver with the packet. */
    lemma ReadBackFill(r: EntityGlobalSpawn)
      ensures r.Fill(ReadBacks(Fields())) == this
    {
    }
  }

  /** `WindowOpen`, packet 0x64. */
  datatype WindowOpen = WindowOpen(windowId: Int8, inventoryType: Int8, windowTitle: string, slots: Int8, useProvidedTitle: bool)
  {
    function Id(): Byte { 0x64 }

    /** The kinds `ReadFrom` reads, in order. */
    static function Layout(): seq<Kind> { [KInt(1), KInt(1), KString, KInt(1), KBool] }

    /** The fields `WriteTo` writes after the id, in order. */
    function Fields(): seq<Value> { [VInt(1, windowId), VInt(1, inventoryType), VString(windowTitle), VInt(1, slots), VBool(useProvidedTitle)] }

    /** The receiver once `ReadFrom` has stored the values read. */
    function Fill(vs: seq<Value>): WindowOpen { WindowOpen(I8At(vs, 0), I8At(vs, 1), StrAt(vs, 2), I8At(vs, 3), BoolAt(vs, 4)) }

    function ReadFrom(input: seq<Byte>): ReadResult<WindowOpen>
    {
      var s := ReadFields(Layout(), In(Fresh, input));
      Result(Fill(s.value), s.st)
    }

    function WriteTo(sink: Sink, orders: seq<seq<Byte>>): Out
      requires |orders| == |Fields()|
    {
      WritePacket(sink, Id(), Fields(), orders)
    }

    /**
     * `WriteTo` puts out the id and then bytes from which any receiver's
     * `ReadFrom` gets the packet back.
     */
    lemma RoundTrip(r: WindowOpen, orders: seq<seq<Byte>>, tail: seq<Byte>)
      requires |orders| == |Fields()| && AllValid(Fields(), orders)
      ensures var o := WriteTo(Sink([], false), orders);
        Delivered(o, Id()) && r.ReadFrom(o.sink.out[1..] + tail) == ReadResult(this, o.rw.n - 1, None, tail)
    {
      LayoutOfFields();
      ReadBackFill(r);
      FlatRoundTrip(Id(), Layout(), Fields(), orders, tail, r.Fill, this);
    }

    /** `WriteTo` writes the kinds `ReadFrom` reads. */
    lemma LayoutOfFields()
      ensures KindsOf(Fields()) == Layout()
    {
    }

    /** The values written, once read back, fill any receiver with the packet. */
    lemma ReadBackFill(r: WindowOpen)
      ensures r.Fill(ReadBacks(Fields())) == this
    {
    }
  }

  /** `WindowClose`, packet 0x65. */
  datatype WindowClose = WindowClose(windowId: Int8)
  {
    function Id(): Byte { 0x65 }

    /** The kinds `ReadFrom` reads, in order. */
    static function Layout(): seq<Kind> { [KInt(1)] }

    /** The fields `WriteTo` writes after the id, in order. */
    function Fields(): seq<Value> { [VInt(1, windowId)] }

    /** The receiver once `ReadFrom` has stored the values read. */
    function Fill(vs: seq<Value>): WindowClose { WindowClose(I8At(vs, 0)) }

    function ReadFrom(input: seq<Byte>): ReadResult<WindowClose>
    {
      var s := ReadFields(Layout(), In(Fresh, input));
      Result(Fill(s.value), s.st)
    }

    function WriteTo(sink: Sink, orders: seq<seq<Byte>>): Out
      requires |orders| == |Fields()|
    {
      WritePacket(sink, Id(), Fields(), orders)
    }

    /**
     * `WriteTo` puts out the id and then bytes from which any receiver's
     * `ReadFrom` gets the packet back.
     */
    lemma RoundTrip(r: WindowClose, orders: seq<seq<Byte>>, tail: seq<Byte>)
      requires |orders| == |Fields()| && AllValid(Fields(), orders)
      ensures var o := WriteTo(Sink([], false), orders);
        Delivered(o, Id()) && r.ReadFrom(o.sink.out[1..] + tail) == ReadResult(this, o.rw.n - 1, None, tail)
    {
      LayoutOfFields();
      ReadBackFill(r);
      FlatRoundTrip(Id(), Layout(), Fields(), orders, tail, r.Fill, this);
    }

    /** `WriteTo` writes the kinds `ReadFrom` reads. */
    lemma LayoutOfFields()
      ensures KindsOf(Fields()) == Layout()
    {
    }

    /** The values written, once read back, fill any receiver with the packet. */
    lemma ReadBackFill(r: WindowClose)
      ensures r.Fill(ReadBacks(Fields())) == this
    {
    }
  }

  /** `WindowClick`, packet 0x66. */
  datatype WindowClick = WindowClick(windowId: Int8, slot: Int16, button: Int8, action: Int16, mode: Int8, item: Option<Slots.Slot>)
  {
    function Id(): Byte { 0x66 }

    /** The kinds `ReadFrom` reads, in order. */
    static function Layout(): seq<Kind> { [KInt(1), KInt(2), KInt(1), KInt(2), KInt(1), KSlot] }

    /** The fields `WriteTo` writes after the id, in order. */
    function Fields(): seq<Value> { [VInt(1, windowId), VInt(2, slot), VInt(1, button), VInt(2, action), VInt(1, mode), VSlot(item)] }

    /** The receiver once `ReadFrom` has stored the values read. */
    function Fill(vs: seq<Value>): WindowClick { WindowClick(I8At(vs, 0), I16At(vs, 1), I8At(vs, 2), I16At(vs, 3), I8At(vs, 4), SlotAt(vs, 5)) }

    function ReadFrom(input: seq<Byte>): ReadResult<WindowClick>
    {
      var s := ReadFields(Layout(), In(Fresh, input));
      Result(Fill(s.value), s.st)
    }

    function WriteTo(sink: Sink, orders: seq<seq<Byte>>): Out
      requires |orders| == |Fields()|
    {
      WritePacket(sink, Id(), Fields(), orders)
    }

    /**
     * `WriteTo` puts out the id and then bytes from which any receiver's
     * `ReadFrom` gets the packet back, except that an empty `Item` slot comes back as `NewSlot`.
     */
    lemma RoundTrip(r: WindowClick, orders: seq<seq<Byte>>, tail: seq<Byte>)
      requires |orders| == |Fields()| && AllValid(Fields(), orders)
      ensures var o := WriteTo(Sink([], false), orders);
        Delivered(o, Id()) && r.ReadFrom(o.sink.out[1..] + tail) == ReadResult(this.(item := ReadBackSlot(item)), o.rw.n - 1, None, tail)
    {
      LayoutOfFields();
      ReadBackFill(r);
      FlatRoundTrip(Id(), Layout(), Fields(), orders, tail, r.Fill, this.(item := ReadBackSlot(item)));
    }

    /** `WriteTo` writes the kinds `ReadFrom` reads. */
    lemma LayoutOfFields()
      ensures KindsOf(Fields()) == Layout()
    {
    }

    /** The values written, once read back, fill any receiver with the packet, except that an empty `Item` slot comes back as `NewSlot`. */
    lemma ReadBackFill(r: WindowClick)
      ensures r.Fill(ReadBacks(Fields())) == this.(item := ReadBackSlot(item))
    {
    }
  }

  /** `WindowSlotSet`, packet 0x67. */
  datatype WindowSlotSet = WindowSlotSet(windowId: Int8, slot: Int16, data: Option<Slots.Slot>)
  {
    function Id(): Byte { 0x67 }

    /** The kinds `ReadFrom` reads, in order. */
    static function Layout(): seq<Kind> { [KInt(1), KInt(2), KSlot] }

    /** The fields `WriteTo` writes after the id, in order. */
    function Fields(): seq<Value> { [VInt(1, windowId), VInt(2, slot), VSlot(data)] }

    /** The receiver once `ReadFrom` has stored the values read. */
    function Fill(vs: seq<Value>): WindowSlotSet { WindowSlotSet(I8At(vs, 0), I16At(vs, 1), SlotAt(vs, 2)) }

    function ReadFrom(input: seq<Byte>): ReadResult<WindowSlotSet>
    {
      var s := ReadFields(Layout(), In(Fresh, input));
      Result(Fill(s.value), s.st)
    }

    function WriteTo(sink: Sink, orders: seq<seq<Byte>>): Out
      requires |orders| == |Fields()|
    {
      WritePacket(sink, Id(), Fields(), orders)
    }

    /**
     * `WriteTo` puts out the id and then bytes from which any receiver's
     * `ReadFrom` gets the packet back, except that an empty `Data` slot comes back as `NewSlot`.
     */
    lemma RoundTrip(r: WindowSlotSet, orders: seq<seq<Byte>>, tail: seq<Byte>)
      requires |orders| == |Fields()| && AllValid(Fields(), orders)
      ensures var o := WriteTo(Sink([], false), orders);
        Delivered(o, Id()) && r.ReadFrom(o.sink.out[1..] + tail) == ReadResult(this.(data := ReadBackSlot(data)), o.rw.n - 1, None, tail)
    {
      LayoutOfFields();
      ReadBackFill(r);
      FlatRoundTrip(Id(), Layout(), Fields(), orders, tail, r.Fill, this.(data := ReadBackSlot(data)));
    }

    /** `WriteTo` writes the kinds `ReadFrom` reads. */
    lemma LayoutOfFields()
      ensures KindsOf(Fields()) == Layout()
    {
    }

    /** The values written, once read back, fill any receiver with the packet, except that an empty `Data` slot comes back as `NewSlot`. */
    lemma ReadBackFill(r: WindowSlotSet)
      ensures r.Fill(ReadBacks(Fields())) == this.(data := ReadBackSlot(data))
    {
    }
  }

  /**
   * `WindowSetItems`, packet 0x68: a window, a count, and that many slots.
   * The write sends the slots by index up to `Count`: slots past `Count` are
   * not sent, and a `Count` past the slots held panics once they run out.
   */
  datatype WindowSetItems = WindowSetItems(windowId: Int8, count: Int16, slotData: seq<Option<Slots.Slot>>)
  {
    function Id(): Byte { 0x68 }

    static function Head(): seq<Kind> { [KInt(1), KInt(2)] }

    function HeadValues(): seq<Value> { [VInt(1, windowId), VInt(2, count)] }

    /** How many slots the write loop sends before it stops or panics. */
    function Sent(): (k: nat)
      ensures k <= |slotData| && (count >= 0 ==> k <= count)
      ensures 0 <= count <= |slotData| ==> k == count
    {
      if count < 0 then 0 else if count as int <= |slotData| then count else |slotData|
    }

    function Fields(): seq<Value> { HeadValues() + SlotValues(slotData[..Sent()]) }

    /**
     * The header, then `make([]*Slot, Count)`, which panics for a negative
     * count and leaves the receiver's slots in place; otherwise the slots read
     * replace them.
     */
    function ReadFrom(input: seq<Byte>): ReadResult<WindowSetItems>
    {
      var h := ReadFields(Head(), In(Fresh, input));
      var p := this.(windowId := I8At(h.value, 0), count := I16At(h.value, 1));
      if p.count < 0 then Result(p, In(Raise(h.st.rw, MakeSlice), h.st.rest))
      else
        var s := ReadFields(Repeat(KSlot, p.count), h.st);
        Result(p.(slotData := SlotsOf(s.value)), s.st)
    }

    /** The id, the header and the slots sent; a count past the slots held then panics. */
    function WriteTo(sink: Sink, orders: seq<seq<Byte>>): Out
      requires |orders| == |Fields()|
    {
      var o := WritePacket(sink, Id(), Fields(), orders);
      if count as int > |slotData| then Out(Raise(o.rw, IndexOutOfRange), o.sink) else o
    }

    /**
     * A count within the slots held reads back as that many slots, an empty
     * slot as `NewSlot`.
     */
    lemma RoundTrip(r: WindowSetItems, orders: seq<seq<Byte>>, tail: seq<Byte>)
      requires |orders| == |Fields()| && AllValid(Fields(), orders) && 0 <= count as int <= |slotData|
      ensures var o := WriteTo(Sink([], false), orders);
        Delivered(o, Id()) &&
        r.ReadFrom(o.sink.out[1..] + tail) == ReadResult(this.(slotData := ReadBackSlots(slotData[..count])), o.rw.n - 1, None, tail)
    {
      Written(orders, tail);
      var o := WriteTo(Sink([], false), orders);
      SlotsRoundTrip(slotData[..count]);
      ReadsBack(r, o.sink.out[1..] + tail, ReadBacks(SlotValues(slotData[..count])), In(RW(o.rw.n - 1, None), tail));
    }

    /** A count past the slots held makes `WriteTo` panic. */
    lemma CountPastSlotsPanics(sink: Sink, orders: seq<seq<Byte>>)
      requires |orders| == |Fields()| && count as int > |slotData|
      ensures var o := WriteTo(sink, orders); o.rw.err.Some? && o.rw.err.value.Panic?
    {
    }

    /** What `WriteTo` puts out, for a count within the slots held, reads as the header and then the slots. */
    lemma Written(orders: seq<seq<Byte>>, tail: seq<Byte>)
      requires |orders| == |Fields()| && AllValid(Fields(), orders) && 0 <= count as int <= |slotData|
      ensures var o := WriteTo(Sink([], false), orders);
        Delivered(o, Id()) &&
        ReadsAs(o.sink.out[1..] + tail, Head(), HeadValues(), Repeat(KSlot, count as int), ReadBacks(SlotValues(slotData[..count])),
                In(RW(o.rw.n - 1, None), tail))
    {
      assert Plain(HeadValues());
      PlainReadBack(HeadValues());
      SlotsRoundTrip(slotData[..count]);
      SplitRoundTrip(Id(), HeadValues(), SlotValues(slotData[..count]), orders, tail,
                     Head(), HeadValues(), Repeat(KSlot, count as int), ReadBacks(SlotValues(slotData[..count])));
    }

    /** What the receiver makes of an input whose header and slots read as written. */
    lemma ReadsBack(r: WindowSetItems, input: seq<Byte>, vs: seq<Value>, st: In)
      requires 0 <= count as int <= |slotData| && SlotsOf(vs) == ReadBackSlots(slotData[..count])
      requires ReadsAs(input, Head(), HeadValues(), Repeat(KSlot, count as int), vs, st)
      ensures r.ReadFrom(input) == Result(this.(slotData := ReadBackSlots(slotData[..count])), st)
    {
    }

    /** `ReadFrom` on a stream: the header, then the loop over the slots. */
    method Read(r: Reader) returns (p: WindowSetItems, n: int, err: Option<Error>)
      modifies r
      ensures ReadResult(p, n, err, r.rest) == ReadFrom(old(r.rest))
    {
      var rw := new ReadWriter();
      var h := ReadFieldsFrom(rw, Head(), r);
      p := this.(windowId := I8At(h, 0), count := I16At(h, 1));
      if p.count < 0 {
        rw.Crash(MakeSlice);
      } else {
        var s := ReadFieldsFrom(rw, Repeat(KSlot, p.count), r);
        p := p.(slotData := SlotsOf(s));
      }
      n, err := rw.Result();
    }

    /** `WriteTo` as the id, the header, the slots sent and the panic, one after the other. */
    lemma WriteInParts(sink: Sink, heads: seq<seq<Byte>>, sent: seq<seq<Byte>>)
      requires |heads| == |HeadValues()| && |sent| == Sent()
      ensures var o := WriteFields(WriteFields(WriteId(Out(Fresh, sink), Id()), HeadValues(), heads), SlotValues(slotData[..Sent()]), sent);
        WriteTo(sink, heads + sent) == if count as int > |slotData| then Out(Raise(o.rw, IndexOutOfRange), o.sink) else o
    {
      WriteFieldsAppend(WriteId(Out(Fresh, sink), Id()), HeadValues(), SlotValues(slotData[..Sent()]), heads, sent);
    }

    /** `WriteTo` on a stream: the loop sends slot i while i is below `Count`, and panics at the first missing one. */
    method Write(w: Writer) returns (n: int, err: Option<Error>, ghost orders: seq<seq<Byte>>)
      modifies w
      ensures |orders| == |Fields()|
      ensures Out(RW(n, err), w.State()) == WriteTo(old(w.State()), orders)
    {
      var rw := new ReadWriter();
      ghost var start := WriteId(Out(Fresh, w.State()), Id());
      WriteIdTo(rw, w, Id());
      ghost var heads := WriteFieldsTo(rw, w, HeadValues());
      ghost var mid := Out(rw.State(), w.State());
      ghost var sent: seq<seq<Byte>> := [];
      var i := 0;
      while i < count as int && i < |slotData|
        invariant 0 <= i <= Sent() && |sent| == i
        invariant Out(rw.State(), w.State()) == WriteFields(mid, SlotValues(slotData[..i]), sent)
      {
        ghost var order := WriteFieldTo(rw, w, VSlot(slotData[i]));
        WriteFieldsSnoc(mid, SlotValues(slotData[..i]), sent, VSlot(slotData[i]), order);
        SlotValuesSnoc(slotData, i);
        sent := sent + [order];
        i := i + 1;
      }
      assert i == Sent();
      WriteInParts(old(w.State()), heads, sent);
      orders := heads + sent;
      if count as int > |slotData| {
        rw.Crash(IndexOutOfRange);
      }
      n, err := rw.Result();
    }
  }

  /** `WindowUpdateProperty`, packet 0x69. */
  datatype WindowUpdateProperty = WindowUpdateProperty(windowId: Int8, property: Int16, value: Int16)
  {
    function Id(): Byte { 0x69 }

    /** The kinds `ReadFrom` reads, in order. */
    static function Layout(): seq<Kind> { [KInt(1), KInt(2), KInt(2)] }

    /** The fields `WriteTo` writes after the id, in order. */
    function Fields(): seq<Value> { [VInt(1, windowId), VInt(2, property), VInt(2, value)] }

    /** The receiver once `ReadFrom` has stored the values read. */
    function Fill(vs: seq<Value>): WindowUpdateProperty { WindowUpdateProperty(I8At(vs, 0), I16At(vs, 1), I16At(vs, 2)) }

    function ReadFrom(input: seq<Byte>): ReadResult<WindowUpdateProperty>
    {
      var s := ReadFields(Layout(), In(Fresh, input));
      Result(Fill(s.value), s.st)
    }

    function WriteTo(sink: Sink, orders: seq<seq<Byte>>): Out
      requires |orders| == |Fields()|
    {
      WritePacket(sink, Id(), Fields(), orders)
    }

    /**
     * `WriteTo` puts out the id and then bytes from which any receiver's
     * `ReadFrom` gets the packet back.
     */
    lemma RoundTrip(r: WindowUpdateProperty, orders: seq<seq<Byte>>, tail: seq<Byte>)
      requires |orders| == |Fields()| && AllValid(Fields(), orders)
      ensures var o := WriteTo(Sink([], false), orders);
        Delivered(o, Id()) && r.ReadFrom(o.sink.out[1..] + tail) == ReadResult(this, o.rw.n - 1, None, tail)
    {
      LayoutOfFields();
      ReadBackFill(r);
      FlatRoundTrip(Id(), Layout(), Fields(), orders, tail, r.Fill, this);
    }

    /** `WriteTo` writes the kinds `ReadFrom` reads. */
    lemma LayoutOfFields()
      ensures KindsOf(Fields()) == Layout()
    {
    }

    /** The values written, once read back, fill any receiver with the packet. */
    lemma ReadBackFill(r: WindowUpdateProperty)
      ensures r.Fill(ReadBacks(Fields())) == this
    {
    }
  }

  /** `ConfirmTransaction`, packet 0x6A. */
  datatype ConfirmTransaction = ConfirmTransaction(windowId: Int8, action: Int16, accepted: bool)
  {
    function Id(): Byte { 0x6A }

    /** The kinds `ReadFrom` reads, in order. */
    static function Layout(): seq<Kind> { [KInt(1), KInt(2), KBool] }

    /** The fields `WriteTo` writes after the id, in order. */
    function Fields(): seq<Value> { [VInt(1, windowId), VInt(2, action), VBool(accepted)] }

    /** The receiver once `ReadFrom` has stored the values read. */
    function Fill(vs: seq<Value>): ConfirmTransaction { ConfirmTransaction(I8At(vs, 0), I16At(vs, 1), BoolAt(vs, 2)) }

    function ReadFrom(input: seq<Byte>): ReadResult<ConfirmTransaction>
    {
      var s := ReadFields(Layout(), In(Fresh, input));
      Result(Fill(s.value), s.st)
    }

    function WriteTo(sink: Sink, orders: seq<seq<Byte>>): Out
      requires |orders| == |Fields()|
    {
      WritePacket(sink, Id(), Fields(), orders)
    }

    /**
     * `WriteTo` puts out the id and then bytes from which any receiver's
     * `ReadFrom` gets the packet back.
     */
    lemma RoundTrip(r: ConfirmTransaction, orders: seq<seq<Byte>>, tail: seq<Byte>)
      requires |orders| == |Fields()| && AllValid(Fields(), orders)
      ensures var o := WriteTo(Sink([], false), orders);
        Delivered(o, Id()) && r.ReadFrom(o.sink.out[1..] + tail) == ReadResult(this, o.rw.n - 1, None, tail)
    {
      LayoutOfFields();
      ReadBackFill(r);
      FlatRoundTrip(Id(), Layout(), Fields(), orders, tail, r.Fill, this);
    }

    /** `WriteTo` writes the kinds `ReadFrom` reads. */
    lemma LayoutOfFields()
      ensures KindsOf(Fields()) == Layout()
    {
    }

    /** The values written, once read back, fill any receiver with the packet. */
    lemma ReadBackFill(r: ConfirmTransaction)
      ensures r.Fill(ReadBacks(Fields())) == this
    {
    }
  }

  /** `CreativeInventoryAction`, packet 0x6B. */
  datatype CreativeInventoryAction = CreativeInventoryAction(slot: Int16, item: Option<Slots.Slot>)
  {
    function Id(): Byte { 0x6B }

    /** The kinds `ReadFrom` reads, in order. */
    static function Layout(): seq<Kind> { [KInt(2), KSlot] }

    /** The fields `WriteTo` writes after the id, in order. */
    function Fields(): seq<Value> { [VInt(2, slot), VSlot(item)] }

    /** The receiver once `ReadFrom` has stored the values read. */
    function Fill(vs: seq<Value>): CreativeInventoryAction { CreativeInventoryAction(I16At(vs, 0), SlotAt(vs, 1)) }

    function ReadFrom(input: seq<Byte>): ReadResult<CreativeInventoryAction>
    {
      var s := ReadFields(Layout(), In(Fresh, input));
      Result(Fill(s.value), s.st)
    }

    function WriteTo(sink: Sink, orders: seq<seq<Byte>>): Out
      requires |orders| == |Fields()|
    {
      WritePacket(sink, Id(), Fields(), orders)
    }

    /**
     * `WriteTo` puts out the id and then bytes from which any receiver's
     * `ReadFrom` gets the packet back, except that an empty `Item` slot comes back as `NewSlot`.
     */
    lemma RoundTrip(r: CreativeInventoryAction, orders: seq<seq<Byte>>, tail: seq<Byte>)
      requires |orders| == |Fields()| && AllValid(Fields(), orders)
      ensures var o := WriteTo(Sink([], false), orders);
        Delivered(o, Id()) && r.ReadFrom(o.sink.out[1..] + tail) == ReadResult(this.(item := ReadBackSlot(item)), o.rw.n - 1, None, tail)
    {
      LayoutOfFields();
      ReadBackFill(r);
      FlatRoundTrip(Id(), Layout(), Fields(), orders, tail, r.Fill, this.(item := ReadBackSlot(item)));
    }

    /** `WriteTo` writes the kinds `ReadFrom` reads. */
    lemma LayoutOfFields()
      ensures KindsOf(Fields()) == Layout()
    {
    }

    /** The values written, once read back, fill any receiver with the packet, except that an empty `Item` slot comes back as `NewSlot`. */
    lemma ReadBackFill(r: CreativeInventoryAction)
      ensures r.Fill(ReadBacks(Fields())) == this.(item := ReadBackSlot(item))
    {
    }
  }

  /** `EnchantItem`, packet 0x6C. */
  datatype EnchantItem = EnchantItem(windowId: Int8, position: Int8)
  {
    function Id(): Byte { 0x6C }

    /** The kinds `ReadFrom` reads, in order. */
    static function Layout(): seq<Kind> { [KInt(1), KInt(1)] }

    /** The fields `WriteTo` writes after the id, in order. */
    function Fields(): seq<Value> { [VInt(1, windowId), VInt(1, position)] }

    /** The receiver once `ReadFrom` has stored the values read. */
    function Fill(vs: seq<Value>): EnchantItem { EnchantItem(I8At(vs, 0), I8At(vs, 1)) }

    function ReadFrom(input: seq<Byte>): ReadResult<EnchantItem>
    {
      var s := ReadFields(Layout(), In(Fresh, input));
      Result(Fill(s.value), s.st)
    }

    function WriteTo(sink: Sink, orders: seq<seq<Byte>>): Out
      requires |orders| == |Fields()|
    {
      WritePacket(sink, Id(), Fields(), orders)
    }

    /**
     * `WriteTo` puts out the id and then bytes from which any receiver's
     * `ReadFrom` gets the packet back.
     */
    lemma RoundTrip(r: EnchantItem, orders: seq<seq<Byte>>, tail: seq<Byte>)
      requires |orders| == |Fields()| && AllValid(Fields(), orders)
      ensures var o := WriteTo(Sink([], false), orders);
        Delivered(o, Id()) && r.ReadFrom(o.sink.out[1..] + tail) == ReadResult(this, o.rw.n - 1, None, tail)
    {
      LayoutOfFields();
      ReadBackFill(r);
      FlatRoundTrip(Id(), Layout(), Fields(), orders, tail, r.Fill, this);
    }

    /** `WriteTo` writes the kinds `ReadFrom` reads. */
    lemma LayoutOfFields()
      ensures KindsOf(Fields()) == Layout()
    {
    }

    /** The values written, once read back, fill any receiver with the packet. */
    lemma ReadBackFill(r: EnchantItem)
      ensures r.Fill(ReadBacks(Fields())) == this
    {
    }
  }

  /** `SignUpdate`, packet 0x82. */
  datatype SignUpdate = SignUpdate(x: Int32, y: Int16, z: Int32, lines: Lines)
  {
    function Id(): Byte { 0x82 }

    /** The kinds `ReadFrom` reads, in order. */
    static function Layout(): seq<Kind> { [KInt(4), KInt(2), KInt(4), KString, KString, KString, KString] }

    /** The fields `WriteTo` writes after the id, in order. */
    function Fields(): seq<Value> { [VInt(4, x), VInt(2, y), VInt(4, z), VString(lines[0]), VString(lines[1]), VString(lines[2]), VString(lines[3])] }

    /** The receiver once `ReadFrom` has stored the values read. */
    function Fill(vs: seq<Value>): SignUpdate { SignUpdate(I32At(vs, 0), I16At(vs, 1), I32At(vs, 2), [StrAt(vs, 3), StrAt(vs, 4), StrAt(vs, 5), StrAt(vs, 6)]) }

    function ReadFrom(input: seq<Byte>): ReadResult<SignUpdate>
    {
      var s := ReadFields(Layout(), In(Fresh, input));
      Result(Fill(s.value), s.st)
    }

    function WriteTo(sink: Sink, orders: seq<seq<Byte>>): Out
      requires |orders| == |Fields()|
    {
      WritePacket(sink, Id(), Fields(), orders)
    }

    /**
     * `WriteTo` puts out the id and then bytes from which any receiver's
     * `ReadFrom` gets the packet back.
     */
    lemma RoundTrip(r: SignUpdate, orders: seq<seq<Byte>>, tail: seq<Byte>)
      requires |orders| == |Fields()| && AllValid(Fields(), orders)
      ensures var o := WriteTo(Sink([], false), orders);
        Delivered(o, Id()) && r.ReadFrom(o.sink.out[1..] + tail) == ReadResult(this, o.rw.n - 1, None, tail)
    {
      LayoutOfFields();
      ReadBackFill(r);
      FlatRoundTrip(Id(), Layout(), Fields(), orders, tail, r.Fill, this);
    }

    /** `WriteTo` writes the kinds `ReadFrom` reads. */
    lemma LayoutOfFields()
      ensures KindsOf(Fields()) == Layout()
    {
    }

    /** The values written, once read back, fill any receiver with the packet. */
    lemma ReadBackFill(r: SignUpdate)
      ensures r.Fill(ReadBacks(Fields())) == this
    {
    }
  }

  /**
   * `ItemData`, packet 0x83: an item type and id, a length, and that many
   * bytes of map data. The write sends the `Length` field and then every byte
   * it holds.
   */
  datatype ItemData = ItemData(typ: Int16, itemId: Int16, length: Int16, text: seq<Byte>)
  {
    function Id(): Byte { 0x83 }

    static function Head(): seq<Kind> { [KInt(2), KInt(2), KInt(2)] }

    function HeadValues(): seq<Value> { [VInt(2, typ), VInt(2, itemId), VInt(2, length)] }

    function Fields(): seq<Value> { HeadValues() + [VRaw(|text|, text)] }

    /** The header, then `ReadByteArray` of `Length` bytes: none for a length of zero or less. */
    function ReadFrom(input: seq<Byte>): ReadResult<ItemData>
    {
      var h := ReadFields(Head(), In(Fresh, input));
      var p := this.(typ := I16At(h.value, 0), itemId := I16At(h.value, 1), length := I16At(h.value, 2));
      var t := ReadByteArray(h.st, p.length);
      Result(p.(text := t.value), t.st)
    }

    function WriteTo(sink: Sink, orders: seq<seq<Byte>>): Out
      requires |orders| == |Fields()|
    {
      WritePacket(sink, Id(), Fields(), orders)
    }

    /** A packet whose length is its number of bytes reads back as itself. */
    lemma RoundTrip(r: ItemData, orders: seq<seq<Byte>>, tail: seq<Byte>)
      requires |orders| == |Fields()| && length as int == |text|
      ensures var o := WriteTo(Sink([], false), orders);
        Delivered(o, Id()) && r.ReadFrom(o.sink.out[1..] + tail) == ReadResult(this, o.rw.n - 1, None, tail)
    {
      Written(orders, tail);
      var o := WriteTo(Sink([], false), orders);
      ReadsBack(r, o.sink.out[1..] + tail, In(RW(o.rw.n - 1, None), tail));
    }

    /** What `WriteTo` puts out reads as the header and then the bytes. */
    lemma Written(orders: seq<seq<Byte>>, tail: seq<Byte>)
      requires |orders| == |Fields()|
      ensures var o := WriteTo(Sink([], false), orders);
        Delivered(o, Id()) &&
        ReadsAs(o.sink.out[1..] + tail, Head(), HeadValues(), [KRaw(|text|)], [VRaw(|text|, text)], In(RW(o.rw.n - 1, None), tail))
    {
      assert AllValid(Fields(), orders);
      assert Plain(HeadValues());
      PlainReadBack(HeadValues());
      PlainReadBack([VRaw(|text|, text)]);
      SplitRoundTrip(Id(), HeadValues(), [VRaw(|text|, text)], orders, tail,
                     Head(), HeadValues(), [KRaw(|text|)], [VRaw(|text|, text)]);
    }

    /** What the receiver makes of an input whose header and bytes read as written. */
    lemma ReadsBack(r: ItemData, input: seq<Byte>, st: In)
      requires length as int == |text|
      requires ReadsAs(input, Head(), HeadValues(), [KRaw(|text|)], [VRaw(|text|, text)], st)
      ensures r.ReadFrom(input) == Result(this, st)
    {
      var h := ReadFields(Head(), In(Fresh, input));
      ReadFieldsCons([KRaw(|text|)], h.st);
    }

    /** `ReadFrom` on a stream. */
    method Read(r: Reader) returns (p: ItemData, n: int, err: Option<Error>)
      modifies r
      ensures ReadResult(p, n, err, r.rest) == ReadFrom(old(r.rest))
    {
      var rw := new ReadWriter();
      var vs := ReadFieldsFrom(rw, Head(), r);
      p := this.(typ := I16At(vs, 0), itemId := I16At(vs, 1), length := I16At(vs, 2));
      var t := rw.ReadBytes(r, p.length);
      p := p.(text := t);
      n, err := rw.Result();
    }
  }

  /** `TileEntityUpdate`, packet 0x84. */
  datatype TileEntityUpdate = TileEntityUpdate(x: Int32, y: Int16, z: Int32, action: Int8, data: seq<Byte>)
  {
    function Id(): Byte { 0x84 }

    /** The kinds `ReadFrom` reads, in order. */
    static function Layout(): seq<Kind> { [KInt(4), KInt(2), KInt(4), KInt(1), KBytes(2)] }

    /** The fields `WriteTo` writes after the id, in order. */
    function Fields(): seq<Value> { [VInt(4, x), VInt(2, y), VInt(4, z), VInt(1, action), VBytes(2, data)] }

    /** The receiver once `ReadFrom` has stored the values read. */
    function Fill(vs: seq<Value>): TileEntityUpdate { TileEntityUpdate(I32At(vs, 0), I16At(vs, 1), I32At(vs, 2), I8At(vs, 3), BytesAt(vs, 4)) }

    function ReadFrom(input: seq<Byte>): ReadResult<TileEntityUpdate>
    {
      var s := ReadFields(Layout(), In(Fresh, input));
      Result(Fill(s.value), s.st)
    }

    function WriteTo(sink: Sink, orders: seq<seq<Byte>>): Out
      requires |orders| == |Fields()|
    {
      WritePacket(sink, Id(), Fields(), orders)
    }

    /**
     * `WriteTo` puts out the id and then bytes from which any receiver's
     * `ReadFrom` gets the packet back.
     */
    lemma RoundTrip(r: TileEntityUpdate, orders: seq<seq<Byte>>, tail: seq<Byte>)
      requires |orders| == |Fields()| && AllValid(Fields(), orders)
      ensures var o := WriteTo(Sink([], false), orders);
        Delivered(o, Id()) && r.ReadFrom(o.sink.out[1..] + tail) == ReadResult(this, o.rw.n - 1, None, tail)
    {
      LayoutOfFields();
      ReadBackFill(r);
      FlatRoundTrip(Id(), Layout(), Fields(), orders, tail, r.Fill, this);
    }

    /** `WriteTo` writes the kinds `ReadFrom` reads. */
    lemma LayoutOfFields()
      ensures KindsOf(Fields()) == Layout()
    {
    }

    /** The values written, once read back, fill any receiver with the packet. */
    lemma ReadBackFill(r: TileEntityUpdate)
      ensures r.Fill(ReadBacks(Fields())) == this
    {
    }
  }

  /** `StatIncrement`, packet 0xC8. */
  datatype StatIncrement = StatIncrement(statId: Int32, amount: Int8)
  {
    function Id(): Byte { 0xC8 }

    /** The kinds `ReadFrom` reads, in order. */
    static function Layout(): seq<Kind> { [KInt(4), KInt(1)] }

    /** The fields `WriteTo` writes after the id, in order. */
    function Fields(): seq<Value> { [VInt(4, statId), VInt(1, amount)] }

    /** The receiver once `ReadFrom` has stored the values read. */
    function Fill(vs: seq<Value>): StatIncrement { StatIncrement(I32At(vs, 0), I8At(vs, 1)) }

    function ReadFrom(input: seq<Byte>): ReadResult<StatIncrement>
    {
      var s := ReadFields(Layout(), In(Fresh, input));
      Result(Fill(s.value), s.st)
    }

    function WriteTo(sink: Sink, orders: seq<seq<Byte>>): Out
      requires |orders| == |Fields()|
    {
      WritePacket(sink, Id(), Fields(), orders)
    }

    /**
     * `WriteTo` puts out the id and then bytes from which any receiver's
     * `ReadFrom` gets the packet back.
     */
    lemma RoundTrip(r: StatIncrement, orders: seq<seq<Byte>>, tail: seq<Byte>)
      requires |orders| == |Fields()| && AllValid(Fields(), orders)
      ensures var o := WriteTo(Sink([], false), orders);
        Delivered(o, Id()) && r.ReadFrom(o.sink.out[1..] + tail) == ReadResult(this, o.rw.n - 1, None, tail)
    {
      LayoutOfFields();
      ReadBackFill(r);
      FlatRoundTrip(Id(), Layout(), Fields(), orders, tail, r.Fill, this);
    }

    /** `WriteTo` writes the kinds `ReadFrom` reads. */
    lemma LayoutOfFields()
      ensures KindsOf(Fields()) == Layout()
    {
    }

    /** The values written, once read back, fill any receiver with the packet. */
    lemma ReadBackFill(r: StatIncrement)
      ensures r.Fill(ReadBacks(Fields())) == this
    {
    }
  }

  /** `PlayerTabListPing`, packet 0xC9. */
  datatype PlayerTabListPing = PlayerTabListPing(name: string, online: bool, ping: Int16)
  {
    function Id(): Byte { 0xC9 }

    /** The kinds `ReadFrom` reads, in order. */
    static function Layout(): seq<Kind> { [KString, KBool, KInt(2)] }

    /** The fields `WriteTo` writes after the id, in order. */
    function Fields(): seq<Value> { [VString(name), VBool(online), VInt(2, ping)] }

    /** The receiver once `ReadFrom` has stored the values read. */
    function Fill(vs: seq<Value>): PlayerTabListPing { PlayerTabListPing(StrAt(vs, 0), BoolAt(vs, 1), I16At(vs, 2)) }

    function ReadFrom(input: seq<Byte>): ReadResult<PlayerTabListPing>
    {
      var s := ReadFields(Layout(), In(Fresh, input));
      Result(Fill(s.value), s.st)
    }

    function WriteTo(sink: Sink, orders: seq<seq<Byte>>): Out
      requires |orders| == |Fields()|
    {
      WritePacket(sink, Id(), Fields(), orders)
    }

    /**
     * `WriteTo` puts out the id and then bytes from which any receiver's
     * `ReadFrom` gets the packet back.
     */
    lemma RoundTrip(r: PlayerTabListPing, orders: seq<seq<Byte>>, tail: seq<Byte>)
      requires |orders| == |Fields()| && AllValid(Fields(), orders)
      ensures var o := WriteTo(Sink([], false), orders);
        Delivered(o, Id()) && r.ReadFrom(o.sink.out[1..] + tail) == ReadResult(this, o.rw.n - 1, None, tail)
    {
      LayoutOfFields();
      ReadBackFill(r);
      FlatRoundTrip(Id(), Layout(), Fields(), orders, tail, r.Fill, this);
    }

    /** `WriteTo` writes the kinds `ReadFrom` reads. */
    lemma LayoutOfFields()
      ensures KindsOf(Fields()) == Layout()
    {
    }

    /** The values written, once read back, fill any receiver with the packet. */
    lemma ReadBackFill(r: PlayerTabListPing)
      ensures r.Fill(ReadBacks(Fields())) == this
    {
    }
  }

  /**
   * `PlayerAbilities`, packet 0xCA: four booleans packed into one flags
   * byte (god mode 8, can fly 4, flying 2, creative 1), then the flying and
   * walking speeds.
   */
  datatype PlayerAbilities = PlayerAbilities(godMode: bool, canFly: bool, flying: bool, creative: bool,
                                             flyingSpeed: Int8, walkingSpeed: Int8)
  {
    function Id(): Byte { 0xCA }

    static function Layout(): seq<Kind> { [KInt(1), KInt(1), KInt(1)] }

    /** The flags byte the write builds, one bit per boolean. */
    function Flags(): (f: Int8)
      ensures 0 <= f < 16
    {
      Bit(godMode, 8) + Bit(canFly, 4) + Bit(flying, 2) + Bit(creative, 1)
    }

    /** The flags byte, then the speeds: the flying speed before the walking speed. */
    function Fields(): seq<Value> { [VInt(1, Flags()), VInt(1, flyingSpeed), VInt(1, walkingSpeed)] }

    /** The receiver once `ReadFrom` has stored the values read. */
    function Fill(vs: seq<Value>): PlayerAbilities
    {
      var flags := I8At(vs, 0);
      PlayerAbilities(HasFlag(flags, 8), HasFlag(flags, 4), HasFlag(flags, 2), HasFlag(flags, 1), I8At(vs, 1), I8At(vs, 2))
    }

    function ReadFrom(input: seq<Byte>): ReadResult<PlayerAbilities>
    {
      var s := ReadFields(Layout(), In(Fresh, input));
      Result(Fill(s.value), s.st)
    }

    function WriteTo(sink: Sink, orders: seq<seq<Byte>>): Out
      requires |orders| == |Fields()|
    {
      WritePacket(sink, Id(), Fields(), orders)
    }

    /** `WriteTo` puts out the id and then bytes from which any receiver's `ReadFrom` gets the packet back. */
    lemma RoundTrip(r: PlayerAbilities, orders: seq<seq<Byte>>, tail: seq<Byte>)
      requires |orders| == |Fields()|
      ensures var o := WriteTo(Sink([], false), orders);
        Delivered(o, Id()) && r.ReadFrom(o.sink.out[1..] + tail) == ReadResult(this, o.rw.n - 1, None, tail)
    {
      assert AllValid(Fields(), orders);
      LayoutOfFields();
      ReadBackFill(r);
      FlatRoundTrip(Id(), Layout(), Fields(), orders, tail, r.Fill, this);
    }

    /** Each boolean is the bit the write set for it. */
    lemma FlagsRoundTrip()
      ensures HasFlag(Flags(), 8) == godMode && HasFlag(Flags(), 4) == canFly
      ensures HasFlag(Flags(), 2) == flying && HasFlag(Flags(), 1) == creative
    {
      var f := Flags();
      assert AsByte(f) == f;
      assert f / 8 == Bit(godMode, 1);
      assert f / 4 == 2 * Bit(godMode, 1) + Bit(canFly, 1);
      assert f / 2 == 4 * Bit(godMode, 1) + 2 * Bit(canFly, 1) + Bit(flying, 1);
    }

    lemma LayoutOfFields()
      ensures KindsOf(Fields()) == Layout()
    {
    }

    /** The values written, once read back, fill any receiver with the packet. */
    lemma ReadBackFill(r: PlayerAbilities)
      ensures r.Fill(ReadBacks(Fields())) == this
    {
      PlainReadBack(Fields());
      FlagsRoundTrip();
    }
  }

  /** `bit` if the boolean is set, otherwise 0. */
  function Bit(b: bool, bit: nat): nat
  {
    if b then bit else 0
  }

  /** `flags&bit == bit` for a single-bit mask, on the byte's two's-complement bits. */
  function HasFlag(flags: Int8, bit: nat): bool
    requires bit > 0
  {
    (AsByte(flags) / bit) % 2 == 1
  }

  /** `TabComplete`, packet 0xCB. */
  datatype TabComplete = TabComplete(text: string)
  {
    function Id(): Byte { 0xCB }

    /** The kinds `ReadFrom` reads, in order. */
    static function Layout(): seq<Kind> { [KString] }

    /** The fields `WriteTo` writes after the id, in order. */
    function Fields(): seq<Value> { [VString(text)] }

    /** The receiver once `ReadFrom` has stored the values read. */
    function Fill(vs: seq<Value>): TabComplete { TabComplete(StrAt(vs, 0)) }

    function ReadFrom(input: seq<Byte>): ReadResult<TabComplete>
    {
      var s := ReadFields(Layout(), In(Fresh, input));
      Result(Fill(s.value), s.st)
    }

    function WriteTo(sink: Sink, orders: seq<seq<Byte>>): Out
      requires |orders| == |Fields()|
    {
      WritePacket(sink, Id(), Fields(), orders)
    }

    /**
     * `WriteTo` puts out the id and then bytes from which any receiver's
     * `ReadFrom` gets the packet back.
     */
    lemma RoundTrip(r: TabComplete, orders: seq<seq<Byte>>, tail: seq<Byte>)
      requires |orders| == |Fields()| && AllValid(Fields(), orders)
      ensures var o := WriteTo(Sink([], false), orders);
        Delivered(o, Id()) && r.ReadFrom(o.sink.out[1..] + tail) == ReadResult(this, o.rw.n - 1, None, tail)
    {
      LayoutOfFields();
      ReadBackFill(r);
      FlatRoundTrip(Id(), Layout(), Fields(), orders, tail, r.Fill, this);
    }

    /** `WriteTo` writes the kinds `ReadFrom` reads. */
    lemma LayoutOfFields()
      ensures KindsOf(Fields()) == Layout()
    {
    }

    /** The values written, once read back, fill any receiver with the packet. */
    lemma ReadBackFill(r: TabComplete)
      ensures r.Fill(ReadBacks(Fields())) == this
    {
    }
  }

  /** `ClientSettings`, packet 0xCC. */
  datatype ClientSettings = ClientSettings(locale: string, viewDistance: Int8, chatFlags: Int8, difficulty: Int8, showCape: bool)
  {
    function Id(): Byte { 0xCC }

    /** The kinds `ReadFrom` reads, in order. */
    static function Layout(): seq<Kind> { [KString, KInt(1), KInt(1), KInt(1), KBool] }

    /** The fields `WriteTo` writes after the id, in order. */
    function Fields(): seq<Value> { [VString(locale), VInt(1, viewDistance), VInt(1, chatFlags), VInt(1, difficulty), VBool(showCape)] }

    /** The receiver once `ReadFrom` has stored the values read. */
    function Fill(vs: seq<Value>): ClientSettings { ClientSettings(StrAt(vs, 0), I8At(vs, 1), I8At(vs, 2), I8At(vs, 3), BoolAt(vs, 4)) }

    function ReadFrom(input: seq<Byte>): ReadResult<ClientSettings>
    {
      var s := ReadFields(Layout(), In(Fresh, input));
      Result(Fill(s.value), s.st)
    }

    function WriteTo(sink: Sink, orders: seq<seq<Byte>>): Out
      requires |orders| == |Fields()|
    {
      WritePacket(sink, Id(), Fields(), orders)
    }

    /**
     * `WriteTo` puts out the id and then bytes from which any receiver's
     * `ReadFrom` gets the packet back.
     */
    lemma RoundTrip(r: ClientSettings, orders: seq<seq<Byte>>, tail: seq<Byte>)
      requires |orders| == |Fields()| && AllValid(Fields(), orders)
      ensures var o := WriteTo(Sink([], false), orders);
        Delivered(o, Id()) && r.ReadFrom(o.sink.out[1..] + tail) == ReadResult(this, o.rw.n - 1, None, tail)
    {
      LayoutOfFields();
      ReadBackFill(r);
      FlatRoundTrip(Id(), Layout(), Fields(), orders, tail, r.Fill, this);
    }

    /** `WriteTo` writes the kinds `ReadFrom` reads. */
    lemma LayoutOfFields()
      ensures KindsOf(Fields()) == Layout()
    {
    }

    /** The values written, once read back, fill any receiver with the packet. */
    lemma ReadBackFill(r: ClientSettings)
      ensures r.Fill(ReadBacks(Fields())) == this
    {
    }
  }

  /** `ClientStatuses`, packet 0xCD. */
  datatype ClientStatuses = ClientStatuses(payload: Int8)
  {
    function Id(): Byte { 0xCD }

    /** The kinds `ReadFrom` reads, in order. */
    static function Layout(): seq<Kind> { [KInt(1)] }

    /** The fields `WriteTo` writes after the id, in order. */
    function Fields(): seq<Value> { [VInt(1, payload)] }

    /** The receiver once `ReadFrom` has stored the values read. */
    function Fill(vs: seq<Value>): ClientStatuses { ClientStatuses(I8At(vs, 0)) }

    function ReadFrom(input: seq<Byte>): ReadResult<ClientStatuses>
    {
      var s := ReadFields(Layout(), In(Fresh, input));
      Result(Fill(s.value), s.st)
    }

    function WriteTo(sink: Sink, orders: seq<seq<Byte>>): Out
      requires |orders| == |Fields()|
    {
      WritePacket(sink, Id(), Fields(), orders)
    }

    /**
     * `WriteTo` puts out the id and then bytes from which any receiver's
     * `ReadFrom` gets the packet back.
     */
    lemma RoundTrip(r: ClientStatuses, orders: seq<seq<Byte>>, tail: seq<Byte>)
      requires |orders| == |Fields()| && AllValid(Fields(), orders)
      ensures var o := WriteTo(Sink([], false), orders);
        Delivered(o, Id()) && r.ReadFrom(o.sink.out[1..] + tail) == ReadResult(this, o.rw.n - 1, None, tail)
    {
      LayoutOfFields();
      ReadBackFill(r);
      FlatRoundTrip(Id(), Layout(), Fields(), orders, tail, r.Fill, this);
    }

    /** `WriteTo` writes the kinds `ReadFrom` reads. */
    lemma LayoutOfFields()
      ensures KindsOf(Fields()) == Layout()
    {
    }

    /** The values written, once read back, fill any receiver with the packet. */
    lemma ReadBackFill(r: ClientStatuses)
      ensures r.Fill(ReadBacks(Fields())) == this
    {
    }
  }

  /** `ScoreObjective`, packet 0xCE. */
  datatype ScoreObjective = ScoreObjective(name: string, value: string, action: Int8)
  {
    function Id(): Byte { 0xCE }

    /** The kinds `ReadFrom` reads, in order. */
    static function Layout(): seq<Kind> { [KString, KString, KInt(1)] }

    /** The fields `WriteTo` writes after the id, in order. */
    function Fields(): seq<Value> { [VString(name), VString(value), VInt(1, action)] }

    /** The receiver once `ReadFrom` has stored the values read. */
    function Fill(vs: seq<Value>): ScoreObjective { ScoreObjective(StrAt(vs, 0), StrAt(vs, 1), I8At(vs, 2)) }

    function ReadFrom(input: seq<Byte>): ReadResult<ScoreObjective>
    {
      var s := ReadFields(Layout(), In(Fresh, input));
      Result(Fill(s.value), s.st)
    }

    function WriteTo(sink: Sink, orders: seq<seq<Byte>>): Out
      requires |orders| == |Fields()|
    {
      WritePacket(sink, Id(), Fields(), orders)
    }

    /**
     * `WriteTo` puts out the id and then bytes from which any receiver's
     * `ReadFrom` gets the packet back.
     */
    lemma RoundTrip(r: ScoreObjective, orders: seq<seq<Byte>>, tail: seq<Byte>)
      requires |orders| == |Fields()| && AllValid(Fields(), orders)
      ensures var o := WriteTo(Sink([], false), orders);
        Delivered(o, Id()) && r.ReadFrom(o.sink.out[1..] + tail) == ReadResult(this, o.rw.n - 1, None, tail)
    {
      LayoutOfFields();
      ReadBackFill(r);
      FlatRoundTrip(Id(), Layout(), Fields(), orders, tail, r.Fill, this);
    }

    /** `WriteTo` writes the kinds `ReadFrom` reads. */
    lemma LayoutOfFields()
      ensures KindsOf(Fields()) == Layout()
    {
    }

    /** The values written, once read back, fill any receiver with the packet. */
    lemma ReadBackFill(r: ScoreObjective)
      ensures r.Fill(ReadBacks(Fields())) == this
    {
    }
  }

  /** `ScoreUpdate`, packet 0xCF. */
  datatype ScoreUpdate = ScoreUpdate(entityName: string, action: Int8, objetive: string, value: Int32)
  {
    function Id(): Byte { 0xCF }

    /** The kinds `ReadFrom` reads, in order. */
    static function Layout(): seq<Kind> { [KString, KInt(1), KString, KInt(4)] }

    /** The fields `WriteTo` writes after the id, in order. */
    function Fields(): seq<Value> { [VString(entityName), VInt(1, action), VString(objetive), VInt(4, value)] }

    /** The receiver once `ReadFrom` has stored the values read. */
    function Fill(vs: seq<Value>): ScoreUpdate { ScoreUpdate(StrAt(vs, 0), I8At(vs, 1), StrAt(vs, 2), I32At(vs, 3)) }

    function ReadFrom(input: seq<Byte>): ReadResult<ScoreUpdate>
    {
      var s := ReadFields(Layout(), In(Fresh, input));
      Result(Fill(s.value), s.st)
    }

    function WriteTo(sink: Sink, orders: seq<seq<Byte>>): Out
      requires |orders| == |Fields()|
    {
      WritePacket(sink, Id(), Fields(), orders)
    }

    /**
     * `WriteTo` puts out the id and then bytes from which any receiver's
     * `ReadFrom` gets the packet back.
     */
    lemma RoundTrip(r: ScoreUpdate, orders: seq<seq<Byte>>, tail: seq<Byte>)
      requires |orders| == |Fields()| && AllValid(Fields(), orders)
      ensures var o := WriteTo(Sink([], false), orders);
        Delivered(o, Id()) && r.ReadFrom(o.sink.out[1..] + tail) == ReadResult(this, o.rw.n - 1, None, tail)
    {
      LayoutOfFields();
      ReadBackFill(r);
      FlatRoundTrip(Id(), Layout(), Fields(), orders, tail, r.Fill, this);
    }

    /** `WriteTo` writes the kinds `ReadFrom` reads. */
    lemma LayoutOfFields()
      ensures KindsOf(Fields()) == Layout()
    {
    }

    /** The values written, once read back, fill any receiver with the packet. */
    lemma ReadBackFill(r: ScoreUpdate)
      ensures r.Fill(ReadBacks(Fields())) == this
    {
    }
  }

  /** `ScoreDisplay`, packet 0xD0. */
  datatype ScoreDisplay = ScoreDisplay(position: Int8, displayName: string)
  {
    function Id(): Byte { 0xD0 }

    /** The kinds `ReadFrom` reads, in order. */
    static function Layout(): seq<Kind> { [KInt(1), KString] }

    /** The fields `WriteTo` writes after the id, in order. */
    function Fields(): seq<Value> { [VInt(1, position), VString(displayName)] }

    /** The receiver once `ReadFrom` has stored the values read. */
    function Fill(vs: seq<Value>): ScoreDisplay { ScoreDisplay(I8At(vs, 0), StrAt(vs, 1)) }

    function ReadFrom(input: seq<Byte>): ReadResult<ScoreDisplay>
    {
      var s := ReadFields(Layout(), In(Fresh, input));
      Result(Fill(s.value), s.st)
    }

    function WriteTo(sink: Sink, orders: seq<seq<Byte>>): Out
      requires |orders| == |Fields()|
    {
      WritePacket(sink, Id(), Fields(), orders)
    }

    /**
     * `WriteTo` puts out the id and then bytes from which any receiver's
     * `ReadFrom` gets the packet back.
     */
    lemma RoundTrip(r: ScoreDisplay, orders: seq<seq<Byte>>, tail: seq<Byte>)
      requires |orders| == |Fields()| && AllValid(Fields(), orders)
      ensures var o := WriteTo(Sink([], false), orders);
        Delivered(o, Id()) && r.ReadFrom(o.sink.out[1..] + tail) == ReadResult(this, o.rw.n - 1, None, tail)
    {
      LayoutOfFields();
      ReadBackFill(r);
      FlatRoundTrip(Id(), Layout(), Fields(), orders, tail, r.Fill, this);
    }

    /** `WriteTo` writes the kinds `ReadFrom` reads. */
    lemma LayoutOfFields()
      ensures KindsOf(Fields()) == Layout()
    {
    }

    /** The values written, once read back, fill any receiver with the packet. */
    lemma ReadBackFill(r: ScoreDisplay)
      ensures r.Fill(ReadBacks(Fields())) == this
    {
    }
  }

  /**
   * `ScoreTeams`, packet 0xD1: a team's name, mode, display name, prefix,
   * suffix and friendly-fire setting, a count, and then `Count` player names.
   * The write sends every name it holds after the `Count` field.
   */
  datatype ScoreTeams = ScoreTeams(name: string, mode: Int8, displayName: string, prefix: string, suffix: string,
                                   friendlyFire: Int8, count: Int16, players: seq<string>)
  {
    function Id(): Byte { 0xD1 }

    static function Head(): seq<Kind> { [KString, KInt(1), KString, KString, KString, KInt(1), KInt(2)] }

    /** The header values as they are written and read. */
    function HeadValues(): seq<Value>
    {
      [VString(name), VInt(1, mode), VString(displayName), VString(prefix), VString(suffix), VInt(1, friendlyFire), VInt(2, count)]
    }

    function Fields(): seq<Value> { HeadValues() + StringValues(players) }

    /** The receiver once the header is read. */
    function StoreHead(vs: seq<Value>): ScoreTeams
    {
      this.(name := StrAt(vs, 0), mode := I8At(vs, 1), displayName := StrAt(vs, 2), prefix := StrAt(vs, 3),
            suffix := StrAt(vs, 4), friendlyFire := I8At(vs, 5), count := I16At(vs, 6))
    }

    /**
     * The header, then `make([]string, Count)`, which panics for a negative
     * count and leaves the receiver's names in place; otherwise the names read
     * replace them.
     */
    function ReadFrom(input: seq<Byte>): ReadResult<ScoreTeams>
    {
      ReadNames(ReadFields(Head(), In(Fresh, input)))
    }

    /** What follows the header `h`. */
    function ReadNames(h: Step<seq<Value>>): ReadResult<ScoreTeams>
    {
      var p := StoreHead(h.value);
      if p.count < 0 then Result(p, In(Raise(h.st.rw, MakeSlice), h.st.rest))
      else
        var s := ReadFields(Repeat(KString, p.count), h.st);
        Result(p.(players := Strings(s.value)), s.st)
    }

    function WriteTo(sink: Sink, orders: seq<seq<Byte>>): Out
      requires |orders| == |Fields()|
    {
      WritePacket(sink, Id(), Fields(), orders)
    }

    /** A packet whose count is its number of names, all of them short enough to send, reads back as itself. */
    lemma RoundTrip(r: ScoreTeams, orders: seq<seq<Byte>>, tail: seq<Byte>)
      requires |orders| == |Fields()| && AllValid(Fields(), orders) && count as int == |players|
      ensures var o := WriteTo(Sink([], false), orders);
        Delivered(o, Id()) && r.ReadFrom(o.sink.out[1..] + tail) == ReadResult(this, o.rw.n - 1, None, tail)
    {
      Written(orders, tail);
      var o := WriteTo(Sink([], false), orders);
      StringsRoundTrip(players);
      ReadsBack(r, o.sink.out[1..] + tail, ReadBacks(StringValues(players)), In(RW(o.rw.n - 1, None), tail));
    }

    /** What `WriteTo` puts out reads as the header and then the names. */
    lemma Written(orders: seq<seq<Byte>>, tail: seq<Byte>)
      requires |orders| == |Fields()| && AllValid(Fields(), orders)
      ensures var o := WriteTo(Sink([], false), orders);
        Delivered(o, Id()) &&
        ReadsAs(o.sink.out[1..] + tail, Head(), HeadValues(), Repeat(KString, |players|), ReadBacks(StringValues(players)),
                In(RW(o.rw.n - 1, None), tail))
    {
      HeadLayout();
      StringsRoundTrip(players);
      SplitRoundTrip(Id(), HeadValues(), StringValues(players), orders, tail,
                     Head(), HeadValues(), Repeat(KString, |players|), ReadBacks(StringValues(players)));
    }

    /** The header is written in the kinds it is read in, and reads back as written. */
    lemma HeadLayout()
      ensures KindsOf(HeadValues()) == Head() && ReadBacks(HeadValues()) == HeadValues()
    {
      HeadKinds();
      HeadReadBack();
    }

    lemma HeadKinds()
      ensures KindsOf(HeadValues()) == Head()
    {
    }

    lemma HeadReadBack()
      ensures ReadBacks(HeadValues()) == HeadValues()
    {
      assert Plain(HeadValues());
      PlainReadBack(HeadValues());
    }

    /** A packet sent with a negative count makes the reader panic in `make`. */
    lemma NegativeCountPanics(r: ScoreTeams, orders: seq<seq<Byte>>, tail: seq<Byte>)
      requires |orders| == |Fields()| && AllValid(Fields(), orders) && count < 0
      ensures var o := WriteTo(Sink([], false), orders);
        Delivered(o, Id()) && r.ReadFrom(o.sink.out[1..] + tail).err == Some(Panic(MakeSlice))
    {
      Written(orders, tail);
      var o := WriteTo(Sink([], false), orders);
      PanicsOn(r, o.sink.out[1..] + tail, Repeat(KString, |players|), ReadBacks(StringValues(players)), In(RW(o.rw.n - 1, None), tail));
    }

    lemma PanicsOn(r: ScoreTeams, input: seq<Byte>, rl: seq<Kind>, rv: seq<Value>, st: In)
      requires count < 0 && ReadsAs(input, Head(), HeadValues(), rl, rv, st)
      ensures r.ReadFrom(input).err == Some(Panic(MakeSlice))
    {
    }

    /** What the receiver makes of an input whose header and names read as written. */
    lemma ReadsBack(r: ScoreTeams, input: seq<Byte>, vs: seq<Value>, st: In)
      requires count as int == |players| && Strings(vs) == players
      requires ReadsAs(input, Head(), HeadValues(), Repeat(KString, |players|), vs, st)
      ensures r.ReadFrom(input) == Result(this, st)
    {
    }

    /** `ReadFrom` on a stream: the header, then the loop over the names. */
    method Read(r: Reader) returns (p: ScoreTeams, n: int, err: Option<Error>)
      modifies r
      ensures ReadResult(p, n, err, r.rest) == ReadFrom(old(r.rest))
    {
      var rw := new ReadWriter();
      var vs := ReadFieldsFrom(rw, Head(), r);
      p, n, err := ReadNamesFrom(rw, r, vs);
    }

    /** `ReadNames` on a stream, after the header `vs`. */
    method ReadNamesFrom(rw: ReadWriter, r: Reader, vs: seq<Value>) returns (p: ScoreTeams, n: int, err: Option<Error>)
      modifies rw, r
      ensures ReadResult(p, n, err, r.rest) == ReadNames(Step(vs, In(old(rw.State()), old(r.rest))))
    {
      p := StoreHead(vs);
      if p.count < 0 {
        rw.Crash(MakeSlice);
      } else {
        var s := ReadFieldsFrom(rw, Repeat(KString, p.count), r);
        p := p.(players := Strings(s));
      }
      n, err := rw.Result();
    }
  }

  /** `PluginMessage`, packet 0xFA. */
  datatype PluginMessage = PluginMessage(name: string, payload: seq<Byte>)
  {
    function Id(): Byte { 0xFA }

    /** The kinds `ReadFrom` reads, in order. */
    static function Layout(): seq<Kind> { [KString, KBytes(2)] }

    /** The fields `WriteTo` writes after the id, in order. */
    function Fields(): seq<Value> { [VString(name), VBytes(2, payload)] }

    /** The receiver once `ReadFrom` has stored the values read. */
    function Fill(vs: seq<Value>): PluginMessage { PluginMessage(StrAt(vs, 0), BytesAt(vs, 1)) }

    function ReadFrom(input: seq<Byte>): ReadResult<PluginMessage>
    {
      var s := ReadFields(Layout(), In(Fresh, input));
      Result(Fill(s.value), s.st)
    }

    function WriteTo(sink: Sink, orders: seq<seq<Byte>>): Out
      requires |orders| == |Fields()|
    {
      WritePacket(sink, Id(), Fields(), orders)
    }

    /**
     * `WriteTo` puts out the id and then bytes from which any receiver's
     * `ReadFrom` gets the packet back.
     */
    lemma RoundTrip(r: PluginMessage, orders: seq<seq<Byte>>, tail: seq<Byte>)
      requires |orders| == |Fields()| && AllValid(Fields(), orders)
      ensures var o := WriteTo(Sink([], false), orders);
        Delivered(o, Id()) && r.ReadFrom(o.sink.out[1..] + tail) == ReadResult(this, o.rw.n - 1, None, tail)
    {
      LayoutOfFields();
      ReadBackFill(r);
      FlatRoundTrip(Id(), Layout(), Fields(), orders, tail, r.Fill, this);
    }

    /** `WriteTo` writes the kinds `ReadFrom` reads. */
    lemma LayoutOfFields()
      ensures KindsOf(Fields()) == Layout()
    {
    }

    /** The values written, once read back, fill any receiver with the packet. */
    lemma ReadBackFill(r: PluginMessage)
      ensures r.Fill(ReadBacks(Fields())) == this
    {
    }
  }

  /** `EncryptionKeyResponse`, packet 0xFC. */
  datatype EncryptionKeyResponse = EncryptionKeyResponse(secret: seq<Byte>, token: seq<Byte>)
  {
    function Id(): Byte { 0xFC }

    /** The kinds `ReadFrom` reads, in order. */
    static function Layout(): seq<Kind> { [KBytes(2), KBytes(2)] }

    /** The fields `WriteTo` writes after the id, in order. */
    function Fields(): seq<Value> { [VBytes(2, secret), VBytes(2, token)] }

    /** The receiver once `ReadFrom` has stored the values read. */
    function Fill(vs: seq<Value>): EncryptionKeyResponse { EncryptionKeyResponse(BytesAt(vs, 0), BytesAt(vs, 1)) }

    function ReadFrom(input: seq<Byte>): ReadResult<EncryptionKeyResponse>
    {
      var s := ReadFields(Layout(), In(Fresh, input));
      Result(Fill(s.value), s.st)
    }

    function WriteTo(sink: Sink, orders: seq<seq<Byte>>): Out
      requires |orders| == |Fields()|
    {
      WritePacket(sink, Id(), Fields(), orders)
    }

    /**
     * `WriteTo` puts out the id and then bytes from which any receiver's
     * `ReadFrom` gets the packet back.
     */
    lemma RoundTrip(r: EncryptionKeyResponse, orders: seq<seq<Byte>>, tail: seq<Byte>)
      requires |orders| == |Fields()| && AllValid(Fields(), orders)
      ensures var o := WriteTo(Sink([], false), orders);
        Delivered(o, Id()) && r.ReadFrom(o.sink.out[1..] + tail) == ReadResult(this, o.rw.n - 1, None, tail)
    {
      LayoutOfFields();
      ReadBackFill(r);
      FlatRoundTrip(Id(), Layout(), Fields(), orders, tail, r.Fill, this);
    }

    /** `WriteTo` writes the kinds `ReadFrom` reads. */
    lemma LayoutOfFields()
      ensures KindsOf(Fields()) == Layout()
    {
    }

    /** The values written, once read back, fill any receiver with the packet. */
    lemma ReadBackFill(r: EncryptionKeyResponse)
      ensures r.Fill(ReadBacks(Fields())) == this
    {
    }
  }

  /** `EncryptionKeyRequest`, packet 0xFD. */
  datatype EncryptionKeyRequest = EncryptionKeyRequest(serverId: string, publicKey: seq<Byte>, token: seq<Byte>)
  {
    function Id(): Byte { 0xFD }

    /** The kinds `ReadFrom` reads, in order. */
    static function Layout(): seq<Kind> { [KString, KBytes(2), KBytes(2)] }

    /** The fields `WriteTo` writes after the id, in order. */
    function Fields(): seq<Value> { [VString(serverId), VBytes(2, publicKey), VBytes(2, token)] }

    /** The receiver once `ReadFrom` has stored the values read. */
    function Fill(vs: seq<Value>): EncryptionKeyRequest { EncryptionKeyRequest(StrAt(vs, 0), BytesAt(vs, 1), BytesAt(vs, 2)) }

    function ReadFrom(input: seq<Byte>): ReadResult<EncryptionKeyRequest>
    {
      var s := ReadFields(Layout(), In(Fresh, input));
      Result(Fill(s.value), s.st)
    }

    function WriteTo(sink: Sink, orders: seq<seq<Byte>>): Out
      requires |orders| == |Fields()|
    {
      WritePacket(sink, Id(), Fields(), orders)
    }

    /**
     * `WriteTo` puts out the id and then bytes from which any receiver's
     * `ReadFrom` gets the packet back.
     */
    lemma RoundTrip(r: EncryptionKeyRequest, orders: seq<seq<Byte>>, tail: seq<Byte>)
      requires |orders| == |Fields()| && AllValid(Fields(), orders)
      ensures var o := WriteTo(Sink([], false), orders);
        Delivered(o, Id()) && r.ReadFrom(o.sink.out[1..] + tail) == ReadResult(this, o.rw.n - 1, None, tail)
    {
      LayoutOfFields();
      ReadBackFill(r);
      FlatRoundTrip(Id(), Layout(), Fields(), orders, tail, r.Fill, this);
    }

    /** `WriteTo` writes the kinds `ReadFrom` reads. */
    lemma LayoutOfFields()
      ensures KindsOf(Fields()) == Layout()
    {
    }

    /** The values written, once read back, fill any receiver with the packet. */
    lemma ReadBackFill(r: EncryptionKeyRequest)
      ensures r.Fill(ReadBacks(Fields())) == this
    {
    }
  }

  /** `ServerListPing`, packet 0xFE. */
  datatype ServerListPing = ServerListPing(magic: Int8)
  {
    function Id(): Byte { 0xFE }

    /** The kinds `ReadFrom` reads, in order. */
    static function Layout(): seq<Kind> { [KInt(1)] }

    /** The fields `WriteTo` writes after the id, in order. */
    function Fields(): seq<Value> { [VInt(1, magic)] }

    /** The receiver once `ReadFrom` has stored the values read. */
    function Fill(vs: seq<Value>): ServerListPing { ServerListPing(I8At(vs, 0)) }

    function ReadFrom(input: seq<Byte>): ReadResult<ServerListPing>
    {
      var s := ReadFields(Layout(), In(Fresh, input));
      Result(Fill(s.value), s.st)
    }

    function WriteTo(sink: Sink, orders: seq<seq<Byte>>): Out
      requires |orders| == |Fields()|
    {
      WritePacket(sink, Id(), Fields(), orders)
    }

    /**
     * `WriteTo` puts out the id and then bytes from which any receiver's
     * `ReadFrom` gets the packet back.
     */
    lemma RoundTrip(r: ServerListPing, orders: seq<seq<Byte>>, tail: seq<Byte>)
      requires |orders| == |Fields()| && AllValid(Fields(), orders)
      ensures var o := WriteTo(Sink([], false), orders);
        Delivered(o, Id()) && r.ReadFrom(o.sink.out[1..] + tail) == ReadResult(this, o.rw.n - 1, None, tail)
    {
      LayoutOfFields();
      ReadBackFill(r);
      FlatRoundTrip(Id(), Layout(), Fields(), orders, tail, r.Fill, this);
    }

    /** `WriteTo` writes the kinds `ReadFrom` reads. */
    lemma LayoutOfFields()
      ensures KindsOf(Fields()) == Layout()
    {
    }

    /** The values written, once read back, fill any receiver with the packet. */
    lemma ReadBackFill(r: ServerListPing)
      ensures r.Fill(ReadBacks(Fields())) == this
    {
    }
  }

  /** `Disconnect`, packet 0xFF. */
  datatype Disconnect = Disconnect(reason: string)
  {
    function Id(): Byte { 0xFF }

    /** The kinds `ReadFrom` reads, in order. */
    static function Layout(): seq<Kind> { [KString] }

    /** The fields `WriteTo` writes after the id, in order. */
    function Fields(): seq<Value> { [VString(reason)] }

    /** The receiver once `ReadFrom` has stored the values read. */
    function Fill(vs: seq<Value>): Disconnect { Disconnect(StrAt(vs, 0)) }

    function ReadFrom(input: seq<Byte>): ReadResult<Disconnect>
    {
      var s := ReadFields(Layout(), In(Fresh, input));
      Result(Fill(s.value), s.st)
    }

    function WriteTo(sink: Sink, orders: seq<seq<Byte>>): Out
      requires |orders| == |Fields()|
    {
      WritePacket(sink, Id(), Fields(), orders)
    }

    /**
     * `WriteTo` puts out the id and then bytes from which any receiver's
     * `ReadFrom` gets the packet back.
     */
    lemma RoundTrip(r: Disconnect, orders: seq<seq<Byte>>, tail: seq<Byte>)
      requires |orders| == |Fields()| && AllValid(Fields(), orders)
      ensures var o := WriteTo(Sink([], false), orders);
        Delivered(o, Id()) && r.ReadFrom(o.sink.out[1..] + tail) == ReadResult(this, o.rw.n - 1, None, tail)
    {
      LayoutOfFields();
      ReadBackFill(r);
      FlatRoundTrip(Id(), Layout(), Fields(), orders, tail, r.Fill, this);
    }

    /** `WriteTo` writes the kinds `ReadFrom` reads. */
    lemma LayoutOfFields()
      ensures KindsOf(Fields()) == Layout()
    {
    }

    /** The values written, once read back, fill any receiver with the packet. */
    lemma ReadBackFill(r: Disconnect)
      ensures r.Fill(ReadBacks(Fields())) == this
    {
    }
  }

}
