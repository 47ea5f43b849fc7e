/**
 * Entity metadata: a map from a 5-bit index to a typed entry. On the wire each
 * entry is a key byte (type in the top 3 bits, index in the low 5) followed by
 * the entry's payload; the byte 0x7F ends the list.
 *
 * Go's map shares its storage with the caller, so `Metadata.ReadFrom` fills
 * the caller's map in place; here the map is a value that the read returns.
 */
module Metadata {
  import opened Opt
  import opened Integers
  import opened Must
  import McString
  import Slots

  /** A three-element vector of `Int32`. */
  type Vec3 = v: seq<Int32> | |v| == 3 witness [0, 0, 0]

  datatype Entry =
    | EntryByte(b: Int8)
    | EntryShort(s: Int16)
    | EntryInt(i: Int32)
    | EntryFloat(f: Float32Bits)
    | EntryString(str: string)
    | EntrySlot(slot: Slots.Slot)
    | EntryVector(data: Vec3)

  const Terminator: Byte := 0x7F

  /** `Type()`: the 3-bit type tag of an entry. */
  function Kind(e: Entry): (t: nat)
    ensures t <= 6
  {
    match e
    case EntryByte(_) => 0
    case EntryShort(_) => 1
    case EntryInt(_) => 2
    case EntryFloat(_) => 3
    case EntryString(_) => 4
    case EntrySlot(_) => 5
    case EntryVector(_) => 6
  }

  /** `EntryFrom`: the zero entry of a type tag; tag 7 has none. */
  function EntryFrom(t: nat): (r: Option<Entry>)
    ensures r.Some? <==> t <= 6
    ensures r.Some? ==> Kind(r.value) == t
  {
    if t == 0 then Some(EntryByte(0))
    else if t == 1 then Some(EntryShort(0))
    else if t == 2 then Some(EntryInt(0))
    else if t == 3 then Some(EntryFloat(0))
    else if t == 4 then Some(EntryString(""))
    else if t == 5 then Some(EntrySlot(Slots.ZeroSlot))
    else if t == 6 then Some(EntryVector([0, 0, 0]))
    else None
  }

  /**
   * The payload's own `ReadFrom` for the entry of type t (0 to 6), with its own
   * count and error. The vector reads its three elements through `Must`: after
   * a failed element the stream is drained, so the later elements fail too and
   * keep their zero value.
   */
  function ReadPayload(t: nat, input: seq<Byte>): (r: Step<Entry>)
    requires t <= 6
    ensures Kind(r.value) == t
    ensures Advances(In(Fresh, input), r.st)
  {
    if t == 0 then var x := ReadI8(In(Fresh, input)); Step(EntryByte(x.value), x.st)
    else if t == 1 then var x := ReadI16(In(Fresh, input)); Step(EntryShort(x.value), x.st)
    else if t == 2 then var x := ReadI32(In(Fresh, input)); Step(EntryInt(x.value), x.st)
    else if t == 3 then var x := ReadF32(In(Fresh, input)); Step(EntryFloat(x.value), x.st)
    else if t == 4 then
      match McString.ReadFrom(input)
      case Decoded(s, n, rest) => Step(EntryString(s), In(RW(n, None), rest))
      case Failed(n, rest) => Step(EntryString(""), In(RW(n, Some(IoError("String.ReadFrom"))), rest))
    else if t == 5 then
      var x := Slots.ReadFrom(Slots.ZeroSlot, input);
      Step(EntrySlot(x.value), x.st)
    else
      var x := ReadI32(In(Fresh, input));
      var y := ReadI32(x.st);
      var z := ReadI32(y.st);
      Step(EntryVector([x.value, y.value, z.value]), z.st)
  }

  /**
   * `Metadata.ReadFrom` with the loop ending at the first error: entries are
   * read into `entries` until the terminator. The type tag is the top 3 bits of
   * the key and the index the low 5; a tag of 7 has no entry type, and calling
   * a method on the missing entry panics.
   */
  function ReadEntries(entries: map<Byte, Entry>, st: In): (r: Step<map<Byte, Entry>>)
    requires st.rw.err.None?
    ensures entries.Keys <= r.value.Keys
    ensures forall k :: k in r.value.Keys ==> k in entries.Keys || k < 32
    ensures Advances(st, r.st)
    decreases |st.rest|
  {
    var k := ReadI8(st);
    var key := ToUnsigned(k.value, 1);
    if k.st.rw.err.Some? || key == Terminator then Step(entries, k.st)
    else
      var index := key % 32;
      match EntryFrom(key / 32)
      case None => Step(entries, In(Raise(k.st.rw, "nil metadata entry"), k.st.rest))
      case Some(e) =>
        var p := ReadPayload(key / 32, k.st.rest);
        var rw := MustHook(k.st.rw, p.st.rw.n, p.st.rw.err);
        var m := entries[index := p.value];
        if rw.err.Some? then Step(m, In(rw, p.st.rest))
        else ReadEntries(m, In(rw, p.st.rest))
  }

  /** `MetadataFrom` / `ReadMetadata`: read into a new, empty map. */
  function Read(input: seq<Byte>): (r: Step<map<Byte, Entry>>)
    ensures forall k :: k in r.value.Keys ==> k < 32
    ensures Advances(In(Fresh, input), r.st)
  {
    ReadEntries(map[], In(Fresh, input))
  }

  // ---------------------------------------------------------------------------
  // The loop as written.

  /** The variables of the loop in `Metadata.ReadFrom`: the map, the reader's state and the last key. */
  datatype Loop = Loop(entries: map<Byte, Entry>, st: In, key: Byte)

  /** One pass of the loop body as written: nothing in it looks at the recorded error. */
  function Iteration(l: Loop): (r: Loop)
  {
    var k := ReadI8(l.st);
    var key := ToUnsigned(k.value, 1);
    if key == Terminator then Loop(l.entries, k.st, key)
    else
      match EntryFrom(key / 32)
      case None => Loop(l.entries, In(Raise(k.st.rw, "nil metadata entry"), k.st.rest), key)
      case Some(e) =>
        var p := ReadPayload(key / 32, k.st.rest);
        Loop(l.entries[key % 32 := p.value], In(MustHook(k.st.rw, p.st.rw.n, p.st.rw.err), p.st.rest), key)
  }

  /** n passes of the loop body. */
  function Iterate(l: Loop, n: nat): Loop
    decreases n
  {
    if n == 0 then l else Iterate(Iteration(l), n - 1)
  }

  /** Once a read has failed on an exhausted stream, a pass reads key 0 and changes nothing but entry 0. */
  lemma IterationStuck(l: Loop)
    requires l.st.rw.err.Some? && l.st.rw.err.value.IoError? && l.st.rest == []
    ensures Iteration(l) == Loop(l.entries[0 := EntryByte(0)], l.st, 0)
  {
  }

  /**
   * As written, a stream that ends before the terminator keeps the loop going
   * for ever: after every number of passes the key is still 0, not 0x7F, and
   * no panic has stopped it.
   */
  lemma {:induction false} AsWrittenNeverEnds(l: Loop, n: nat)
    requires l.st.rw.err.Some? && l.st.rw.err.value.IoError? && l.st.rest == []
    requires n >= 1
    ensures Iterate(l, n) == Loop(l.entries[0 := EntryByte(0)], l.st, 0)
    decreases n
  {
    IterationStuck(l);
    if n > 1 {
      var l1 := Iteration(l);
      AsWrittenNeverEnds(l1, n - 1);
      assert l1.entries[0 := EntryByte(0)] == l.entries[0 := EntryByte(0)];
    }
  }

  /** The smallest such stream: the empty one. Two passes in, the loop has stopped making progress. */
  lemma EmptyStreamNeverEnds(n: nat)
    requires n >= 1
    ensures Iterate(Loop(map[], In(Fresh, []), 0), n).key != Terminator
    ensures Read([]) == Step(map[], In(RW(0, Some(IoError("ReadInt8"))), []))
  {
    var l := Loop(map[], In(Fresh, []), 0);
    var l1 := Iteration(l);
    assert l1 == Loop(map[0 := EntryByte(0)], In(RW(0, Some(IoError("ReadInt8"))), []), 0);
    if n > 1 {
      AsWrittenNeverEnds(l1, n - 1);
    }
  }

  /** A key whose type tag is 7 panics. */
  lemma UnknownTypePanics(index: Byte, tail: seq<Byte>)
    requires index < 32
    ensures Read([0xE0 + index] + tail).st.rw.err == Some(Panic("nil metadata entry"))
  {
    var input := [0xE0 + index] + tail;
    assert input[..1] == [0xE0 + index];
    assert Pow256(1) == 256;
  }

  // ---------------------------------------------------------------------------
  // Writing.

  /** `typ<<5 | (index & 0x1F)`: the two bit fields do not overlap, so the or is a sum (the mask keeps an index below 32 as it is). */
  function KeyByte(t: nat, index: Byte): Byte
    requires t <= 6
  {
    t * 32 + (if index < 32 then index else index % 32)
  }

  /** The key byte's top three bits are the type and its low five the index. */
  lemma KeyByteFields(t: nat, index: Byte)
    requires t <= 6
    ensures KeyByte(t, index) / 32 == t && KeyByte(t, index) % 32 == index % 32
  {
  }

  /** The bytes the entry's own `WriteTo` writes (strings count their bytes in full). */
  function PayloadBytes(e: Entry): (bs: seq<Byte>)
  {
    match e
    case EntryByte(b) => FitsWidths(b); Encode(b, 1)
    case EntryShort(s) => FitsWidths(s); Encode(s, 2)
    case EntryInt(i) => FitsWidths(i); Encode(i, 4)
    case EntryFloat(f) => assert Pow256(4) == 0x1_0000_0000; BytesOf(f, 4)
    case EntryString(str) => McString.WriteToCounted(str).0
    case EntrySlot(s) => Slots.Bytes(s)
    case EntryVector(v) =>
      FitsWidths(v[0]);
      FitsWidths(v[1]);
      FitsWidths(v[2]);
      Encode(v[0], 4) + (Encode(v[1], 4) + Encode(v[2], 4))
  }

  /** `order` lists every key of m exactly once: one possible iteration order of the Go map. */
  predicate IsEnumeration(order: seq<Byte>, m: map<Byte, Entry>)
  {
    (forall i :: 0 <= i < |order| ==> order[i] in m) &&
    (forall k :: k in m ==> k in order) &&
    (forall i, j :: 0 <= i < j < |order| ==> order[i] != order[j])
  }

  /** Key byte and payload of each entry, in the given order. */
  function EntriesBytes(m: map<Byte, Entry>, order: seq<Byte>): (bs: seq<Byte>)
  {
    if order == [] then []
    else if order[0] !in m then EntriesBytes(m, order[1..])
    else
      var e := m[order[0]];
      [KeyByte(Kind(e), order[0])] + PayloadBytes(e) + EntriesBytes(m, order[1..])
  }

  /** The bytes `Metadata.WriteTo` puts on the wire, the map being enumerated in `order`. */
  function Bytes(m: map<Byte, Entry>, order: seq<Byte>): (bs: seq<Byte>)
    ensures |bs| >= 1 && bs[|bs| - 1] == Terminator
  {
    EntriesBytes(m, order) + [Terminator]
  }

  /**
   * The state of `Metadata.WriteTo` after the entries in `order`: every write
   * goes through `Must`, so on a failed destination the first write records the
   * error and nothing is counted; otherwise the count is the number of bytes
   * written.
   */
  function Partial(m: map<Byte, Entry>, order: seq<Byte>, sink: Sink): (r: Out)
  {
    if sink.broken then Out(if order == [] then Fresh else RW(0, Some(IoError("WriteTo"))), sink)
    else Out(RW(|EntriesBytes(m, order)|, None), Sink(sink.out + EntriesBytes(m, order), false))
  }

  /** `Metadata.WriteTo`, the map being enumerated in `order`: the entries, then the terminator. */
  function WriteTo(m: map<Byte, Entry>, order: seq<Byte>, sink: Sink): (r: Out)
    ensures !sink.broken ==> r == Out(RW(|Bytes(m, order)|, None), Sink(sink.out + Bytes(m, order), false))
    ensures sink.broken ==> r.sink == sink && r.rw.err.Some? && r.rw.n == 0
  {
    assert sink.out + EntriesBytes(m, order) + [Terminator] == sink.out + Bytes(m, order);
    WriteBytes(Partial(m, order, sink), [Terminator], "WriteTo")
  }

  /** One more entry: its key byte, then its payload, whose own count and error go through `Must`. */
  lemma PartialStep(m: map<Byte, Entry>, order: seq<Byte>, index: Byte, sink: Sink)
    requires index in m
    ensures var o := WriteBytes(Partial(m, order, sink), [KeyByte(Kind(m[index]), index)], "WriteTo");
      var p := WriteBytes(Out(Fresh, o.sink), PayloadBytes(m[index]), "WriteTo");
      Partial(m, order + [index], sink) == Out(MustHook(o.rw, p.rw.n, p.rw.err), p.sink)
  {
    EntriesBytesSnoc(m, order, index);
    var e := m[index];
    var kb := [KeyByte(Kind(e), index)];
    assert sink.out + EntriesBytes(m, order) + kb + PayloadBytes(e) == sink.out + EntriesBytes(m, order + [index]);
  }

  /** An entry whose encoding reads back as itself. */
  predicate EntryValid(e: Entry)
  {
    match e
    case EntryString(str) => |McString.EncodeUtf16(str)| <= 0xFFFF
    case EntrySlot(s) => Slots.Valid(s) && Slots.ReadBack(s, Slots.ZeroSlot) == s
    case _ => true
  }

  /**
   * A map the encoding can carry: indices below 32 and readable entries. A float
   * at index 31 would have the key byte 0x7F, which ends the list.
   */
  predicate Valid(m: map<Byte, Entry>)
  {
    forall k :: k in m ==> k < 32 && EntryValid(m[k]) && KeyByte(Kind(m[k]), k) != Terminator
  }

  /** Every payload reads back as itself through the entry type its key names. */
  lemma PayloadRoundTrip(e: Entry, tail: seq<Byte>)
    requires EntryValid(e)
    ensures ReadPayload(Kind(e), PayloadBytes(e) + tail) == Step(e, In(RW(|PayloadBytes(e)|, None), tail))
  {
    match e {
      case EntryByte(b) => FitsWidths(b); ReadIntWriteInt(Fresh, b, 1, tail, "ReadInt8");
      case EntryShort(s) => FitsWidths(s); ReadIntWriteInt(Fresh, s, 2, tail, "ReadInt16");
      case EntryInt(i) => FitsWidths(i); ReadIntWriteInt(Fresh, i, 4, tail, "ReadInt32");
      case EntryFloat(f) => FloatRoundTrip(f, tail);
      case EntryString(str) => McString.ReadWriteRoundTrip(str, tail);
      case EntrySlot(s) => Slots.ReadWriteRoundTrip(s, Slots.ZeroSlot, tail);
      case EntryVector(v) => VectorRoundTrip(v, tail);
    }
  }

  /** A float payload is its four bytes, read back as the same bits. */
  lemma FloatRoundTrip(f: Float32Bits, tail: seq<Byte>)
    ensures ReadPayload(3, PayloadBytes(EntryFloat(f)) + tail) == Step(EntryFloat(f), In(RW(4, None), tail))
  {
    assert Pow256(4) == 0x1_0000_0000;
    var input := BytesOf(f, 4) + tail;
    assert input[..4] == BytesOf(f, 4);
    ValueOfBytesOf(f, 4);
  }

  /** A vector payload is its three coordinates, read back one after the other. */
  lemma VectorRoundTrip(v: Vec3, tail: seq<Byte>)
    ensures ReadPayload(6, PayloadBytes(EntryVector(v)) + tail) == Step(EntryVector(v), In(RW(12, None), tail))
  {
    FitsWidths(v[0]);
    FitsWidths(v[1]);
    FitsWidths(v[2]);
    var r2 := Encode(v[2], 4) + tail;
    var r1 := Encode(v[1], 4) + r2;
    assert PayloadBytes(EntryVector(v)) + tail == Encode(v[0], 4) + r1;
    ReadIntWriteInt(Fresh, v[0], 4, r1, "ReadInt32");
    ReadIntWriteInt(RW(4, None), v[1], 4, r2, "ReadInt32");
    ReadIntWriteInt(RW(8, None), v[2], 4, tail, "ReadInt32");
    assert [v[0], v[1], v[2]] == v;
  }

  /** The map after storing the entries of m named by `order`, one by one, into acc. */
  function Fold(acc: map<Byte, Entry>, m: map<Byte, Entry>, order: seq<Byte>): map<Byte, Entry>
    decreases |order|
  {
    if order == [] then acc
    else if order[0] !in m then Fold(acc, m, order[1..])
    else Fold(acc[order[0] := m[order[0]]], m, order[1..])
  }

  /** Storing the entries named by `order`: they take m's entries, the other keys keep acc's. */
  lemma {:induction false} FoldContents(acc: map<Byte, Entry>, m: map<Byte, Entry>, order: seq<Byte>)
    ensures Fold(acc, m, order).Keys == acc.Keys + set k | k in order && k in m
    ensures forall k :: k in order && k in m ==> Fold(acc, m, order)[k] == m[k]
    ensures forall k :: k in acc && k !in order ==> Fold(acc, m, order)[k] == acc[k]
    decreases |order|
  {
    if order != [] {
      if order[0] in m {
        FoldContents(acc[order[0] := m[order[0]]], m, order[1..]);
      } else {
        FoldContents(acc, m, order[1..]);
      }
      forall k | k in order
        ensures k == order[0] || k in order[1..]
      {
        var i :| 0 <= i < |order| && order[i] == k;
        if i > 0 {
          assert order[1..][i - 1] == k;
        }
      }
    }
  }

  /** Storing the entries of an enumeration into an empty map rebuilds the map. */
  lemma FoldEnumeration(m: map<Byte, Entry>, order: seq<Byte>)
    requires IsEnumeration(order, m)
    ensures Fold(map[], m, order) == m
  {
    FoldContents(map[], m, order);
  }

  /** Reading one encoded entry stores it and goes on with what follows. */
  lemma EntryStep(acc: map<Byte, Entry>, index: Byte, e: Entry, c: int, later: seq<Byte>)
    requires index < 32 && EntryValid(e) && KeyByte(Kind(e), index) != Terminator
    ensures ReadEntries(acc, In(RW(c, None), [KeyByte(Kind(e), index)] + (PayloadBytes(e) + later))) ==
      ReadEntries(acc[index := e], In(RW(c + 1 + |PayloadBytes(e)|, None), later))
  {
    var key := KeyByte(Kind(e), index);
    var signed := FromUnsigned(key, 1);
    assert Encode(signed, 1) == [key];
    var input := [key] + (PayloadBytes(e) + later);
    assert input == Encode(signed, 1) + (PayloadBytes(e) + later);
    ReadIntWriteInt(RW(c, None), signed, 1, PayloadBytes(e) + later, "ReadInt8");
    var k := ReadI8(In(RW(c, None), input));
    assert k == Step(signed, In(RW(c + 1, None), PayloadBytes(e) + later));
    assert ToUnsigned(k.value, 1) == key;
    KeyByteFields(Kind(e), index);
    assert key / 32 == Kind(e) && key % 32 == index;
    PayloadRoundTrip(e, later);
    var p := ReadPayload(key / 32, k.st.rest);
    assert p == Step(e, In(RW(|PayloadBytes(e)|, None), later));
    assert MustHook(k.st.rw, p.st.rw.n, p.st.rw.err) == RW(c + 1 + |PayloadBytes(e)|, None);
  }

  /** Reading the encoded entries stores each of them and stops after the terminator. */
  lemma {:induction false} EntriesRoundTrip(acc: map<Byte, Entry>, m: map<Byte, Entry>, order: seq<Byte>, c: int, tail: seq<Byte>)
    requires Valid(m)
    ensures ReadEntries(acc, In(RW(c, None), EntriesBytes(m, order) + [Terminator] + tail)) ==
      Step(Fold(acc, m, order), In(RW(c + |EntriesBytes(m, order)| + 1, None), tail))
    decreases |order|
  {
    if order == [] {
      TerminatorStep(acc, c, tail);
    } else if order[0] !in m {
      EntriesRoundTrip(acc, m, order[1..], c, tail);
    } else {
      var e := m[order[0]];
      var c' := c + 1 + |PayloadBytes(e)|;
      EntriesRoundTrip(acc[order[0] := e], m, order[1..], c', tail);
      ConsStep(acc, m, order, e, c, c', tail);
    }
  }

  /** The inductive step of `EntriesRoundTrip`: the first entry, then the rest. */
  lemma ConsStep(acc: map<Byte, Entry>, m: map<Byte, Entry>, order: seq<Byte>, e: Entry, c: int, c': int, tail: seq<Byte>)
    requires order != [] && order[0] in m && e == m[order[0]]
    requires order[0] < 32 && EntryValid(e) && KeyByte(Kind(e), order[0]) != Terminator
    requires c' == c + 1 + |PayloadBytes(e)|
    requires ReadEntries(acc[order[0] := e], In(RW(c', None), EntriesBytes(m, order[1..]) + [Terminator] + tail)) ==
      Step(Fold(acc[order[0] := e], m, order[1..]), In(RW(c' + |EntriesBytes(m, order[1..])| + 1, None), tail))
    ensures ReadEntries(acc, In(RW(c, None), EntriesBytes(m, order) + [Terminator] + tail)) ==
      Step(Fold(acc, m, order), In(RW(c + |EntriesBytes(m, order)| + 1, None), tail))
  {
    var key := KeyByte(Kind(e), order[0]);
    var more := EntriesBytes(m, order[1..]);
    var later := more + [Terminator] + tail;
    var input := EntriesBytes(m, order) + [Terminator] + tail;
    var acc' := acc[order[0] := e];
    assert input == [key] + (PayloadBytes(e) + later) && c + |EntriesBytes(m, order)| + 1 == c' + |more| + 1 by {
      ConsBytes(m, order, tail);
    }
    assert Fold(acc, m, order) == Fold(acc', m, order[1..]);
    calc {
      ReadEntries(acc, In(RW(c, None), input));
      ReadEntries(acc, In(RW(c, None), [key] + (PayloadBytes(e) + later)));
      { EntryStep(acc, order[0], e, c, later); }
      ReadEntries(acc', In(RW(c', None), later));
    }
  }

  /** The encoding of a non-empty list of entries: the first key byte and payload, then the rest. */
  lemma ConsBytes(m: map<Byte, Entry>, order: seq<Byte>, tail: seq<Byte>)
    requires order != [] && order[0] in m
    ensures var e := m[order[0]];
      EntriesBytes(m, order) + [Terminator] + tail ==
        [KeyByte(Kind(e), order[0])] + (PayloadBytes(e) + (EntriesBytes(m, order[1..]) + [Terminator] + tail))
    ensures |EntriesBytes(m, order)| == 1 + |PayloadBytes(m[order[0]])| + |EntriesBytes(m, order[1..])|
  {
    var e := m[order[0]];
    var key := KeyByte(Kind(e), order[0]);
    var more := EntriesBytes(m, order[1..]);
    assert EntriesBytes(m, order) == [key] + PayloadBytes(e) + more;
    Regroup([key], PayloadBytes(e), more, [Terminator], tail);
  }

  lemma Regroup(a: seq<Byte>, b: seq<Byte>, c: seq<Byte>, d: seq<Byte>, e: seq<Byte>)
    ensures a + b + c + d + e == a + (b + (c + d + e))
  {
    assert a + b + c == a + (b + c);
    assert a + (b + c) + d == a + (b + c + d);
    assert a + (b + c + d) + e == a + (b + c + d + e);
    assert b + c + d + e == b + (c + d + e);
  }

  /** Reading the terminator ends the list. */
  lemma TerminatorStep(acc: map<Byte, Entry>, c: int, tail: seq<Byte>)
    ensures ReadEntries(acc, In(RW(c, None), [] + [Terminator] + tail)) == Step(acc, In(RW(c + 1, None), tail))
  {
    assert Pow256(1) == 256;
    assert [] + [Terminator] + tail == Encode(0x7F, 1) + tail;
    ReadIntWriteInt(RW(c, None), 0x7F, 1, tail, "ReadInt8");
  }

  /** Whatever order the map is enumerated in, reading back what was written yields the map. */
  lemma ReadWriteRoundTrip(m: map<Byte, Entry>, order: seq<Byte>, tail: seq<Byte>)
    requires Valid(m) && IsEnumeration(order, m)
    ensures Read(Bytes(m, order) + tail) == Step(m, In(RW(|Bytes(m, order)|, None), tail))
  {
    EntriesRoundTrip(map[], m, order, 0, tail);
    FoldEnumeration(m, order);
    assert Bytes(m, order) + tail == EntriesBytes(m, order) + [Terminator] + tail;
  }

  /** The test vector of the package: written in key order, it reads back as the same map. */
  lemma Example(m: map<Byte, Entry>, order: seq<Byte>, input: seq<Byte>)
    requires m == map[0 := EntryByte(0), 1 := EntryShort(300), 6 := EntryByte(0)]
    requires order == [0, 1, 6]
    requires input == [0, 0, 0x21, 0x01, 0x2c, 6, 0, 127]
    ensures Bytes(m, order) == input
    ensures Read(input) == Step(m, In(RW(8, None), []))
  {
    ExampleBytes(m, order, input);
    ExampleValid(m, order);
    EnumerationReads(m, order, input);
  }

  /** The entries of the test vector, one at a time, then the terminator. */
  lemma ExampleBytes(m: map<Byte, Entry>, order: seq<Byte>, input: seq<Byte>)
    requires m == map[0 := EntryByte(0), 1 := EntryShort(300), 6 := EntryByte(0)]
    requires order == [0, 1, 6]
    requires input == [0, 0, 0x21, 0x01, 0x2c, 6, 0, 127]
    ensures Bytes(m, order) == input && |input| == 8
  {
    var entries: seq<Byte> := [0, 0, 0x21, 0x01, 0x2c, 6, 0];
    ExampleEntries(m, order, entries);
    assert entries + [Terminator] == input;
  }

  /** The entries of the test vector, one at a time. */
  lemma ExampleEntries(m: map<Byte, Entry>, order: seq<Byte>, entries: seq<Byte>)
    requires m == map[0 := EntryByte(0), 1 := EntryShort(300), 6 := EntryByte(0)]
    requires order == [0, 1, 6]
    requires entries == [0, 0, 0x21, 0x01, 0x2c, 6, 0]
    ensures EntriesBytes(m, order) == entries
  {
    ExampleKeysAndPayloads();
    assert EntriesBytes(m, order[2..]) == [6, 0] by {
      assert order[2..][1..] == [];
    }
    assert EntriesBytes(m, order[1..]) == [0x21, 0x01, 0x2c, 6, 0] by {
      assert order[1..][1..] == order[2..];
    }
  }

  /** The key bytes and payloads of the test vector's entries. */
  lemma ExampleKeysAndPayloads()
    ensures KeyByte(Kind(EntryByte(0)), 0) == 0 && KeyByte(Kind(EntryShort(300)), 1) == 0x21
    ensures KeyByte(Kind(EntryByte(0)), 6) == 6
    ensures PayloadBytes(EntryByte(0)) == [0] && PayloadBytes(EntryShort(300)) == [0x01, 0x2c]
  {
    ExampleKeys();
    ExamplePayloadBytes();
  }

  /** A byte at index 0 and 6 and a short at index 1. */
  lemma ExampleKeys()
    ensures KeyByte(0, 0) == 0 && KeyByte(1, 1) == 0x21 && KeyByte(0, 6) == 6
  {
  }

  /** 0 as one byte and 300 as two, big-endian. */
  lemma ExamplePayloadBytes()
    ensures Encode(0, 1) == [0] && Encode(300, 2) == [0x01, 0x2c]
  {
    assert Pow256(0) == 1 && Pow256(1) == 256 && Pow256(2) == 0x1_0000;
    assert BytesOf(0, 1) == BytesOf(0, 0) + [0] == [0];
    assert BytesOf(1, 1) == BytesOf(0, 0) + [1] == [1];
    assert BytesOf(300, 2) == BytesOf(1, 1) + [44] == [0x01, 0x2c];
  }

  /** The test vector's map can be carried, and [0, 1, 6] enumerates it. */
  lemma ExampleValid(m: map<Byte, Entry>, order: seq<Byte>)
    requires m == map[0 := EntryByte(0), 1 := EntryShort(300), 6 := EntryByte(0)]
    requires order == [0, 1, 6]
    ensures Valid(m) && IsEnumeration(order, m)
  {
  }

  /** An instance of `ReadWriteRoundTrip` with nothing after the encoding. */
  lemma EnumerationReads(m: map<Byte, Entry>, order: seq<Byte>, input: seq<Byte>)
    requires Valid(m) && IsEnumeration(order, m) && input == Bytes(m, order)
    ensures Read(input) == Step(m, In(RW(|input|, None), []))
  {
    ReadWriteRoundTrip(m, order, []);
    assert input + [] == input;
  }

  /** A float at index 31 is read as the end of the list: the map reads back without it. */
  lemma FloatAtIndex31IsLost(f: Float32Bits, tail: seq<Byte>)
    ensures KeyByte(Kind(EntryFloat(f)), 31) == Terminator
    ensures Read(Bytes(map[31 := EntryFloat(f)], [31]) + tail).value == map[]
  {
    var m := map[31 as Byte := EntryFloat(f)];
    var input := Bytes(m, [31]) + tail;
    assert input[..1] == [0x7F];
    assert Pow256(1) == 256;
  }

  // ---------------------------------------------------------------------------
  // The same on streams.

  /** The payload's `ReadFrom` on a stream: proved against `ReadPayload`. */
  method ReadPayloadFrom(t: nat, r: Reader) returns (e: Entry, n: int, err: Option<Error>)
    requires t <= 6
    modifies r
    ensures Step(e, In(RW(n, err), r.rest)) == ReadPayload(t, old(r.rest))
  {
    var rw := new ReadWriter();
    if t == 0 {
      var x := rw.ReadInt8(r);
      e := EntryByte(x);
    } else if t == 1 {
      var x := rw.ReadInt16(r);
      e := EntryShort(x);
    } else if t == 2 {
      var x := rw.ReadInt32(r);
      e := EntryInt(x);
    } else if t == 3 {
      var x := rw.ReadFloat32(r);
      e := EntryFloat(x);
    } else if t == 4 {
      var d := McString.ReadFrom(r.rest);
      r.rest := d.rest;
      if d.Decoded? {
        return EntryString(d.value), d.n, None;
      }
      return EntryString(""), d.n, Some(IoError("String.ReadFrom"));
    } else if t == 5 {
      var s, sn, serr := Slots.ReadSlotFrom(Slots.ZeroSlot, r);
      return EntrySlot(s), sn, serr;
    } else {
      var x := rw.ReadInt32(r);
      var y := rw.ReadInt32(r);
      var z := rw.ReadInt32(r);
      e := EntryVector([x, y, z]);
    }
    n, err := rw.Result();
  }

  /** `Metadata.ReadFrom`, with the loop ending at the first error: proved against `ReadEntries`. */
  method ReadMetadataFrom(entries: map<Byte, Entry>, r: Reader) returns (m: map<Byte, Entry>, n: int, err: Option<Error>)
    modifies r
    ensures Step(m, In(RW(n, err), r.rest)) == ReadEntries(entries, In(Fresh, old(r.rest)))
  {
    var rw := new ReadWriter();
    m := entries;
    while true
      invariant rw.Err.None?
      invariant ReadEntries(m, In(rw.State(), r.rest)) == ReadEntries(entries, In(Fresh, old(r.rest)))
      decreases |r.rest|
    {
      ghost var before := In(rw.State(), r.rest);
      var k := rw.ReadInt8(r);
      var key := ToUnsigned(k, 1);
      if rw.Err.Some? || key == Terminator {
        break;
      }
      var index := key % 32;
      if key / 32 == 7 {
        rw.Check(Some(Panic("nil metadata entry")));
        break;
      }
      var e, pn, perr := ReadPayloadFrom(key / 32, r);
      rw.Must(pn, perr);
      m := m[index := e];
      if rw.Err.Some? {
        break;
      }
    }
    n, err := rw.Result();
  }

  /** The payload's own `WriteTo` on a stream: a failed destination accepts nothing. */
  method WritePayloadTo(e: Entry, w: Writer) returns (n: int, err: Option<Error>)
    modifies w
    ensures Out(RW(n, err), w.State()) == WriteBytes(Out(Fresh, old(w.State())), PayloadBytes(e), "WriteTo")
  {
    if w.broken {
      return 0, Some(IoError("WriteTo"));
    }
    w.out := w.out + PayloadBytes(e);
    n, err := |PayloadBytes(e)|, None;
  }

  /** Appending one more key to the order appends its key byte and payload. */
  lemma {:induction false} EntriesBytesSnoc(m: map<Byte, Entry>, order: seq<Byte>, k: Byte)
    requires k in m
    ensures EntriesBytes(m, order + [k]) == EntriesBytes(m, order) + [KeyByte(Kind(m[k]), k)] + PayloadBytes(m[k])
    decreases |order|
  {
    if order == [] {
      assert EntriesBytes(m, [k]) == [KeyByte(Kind(m[k]), k)] + PayloadBytes(m[k]) + EntriesBytes(m, []);
    } else if order[0] !in m {
      assert (order + [k])[1..] == order[1..] + [k];
      EntriesBytesSnoc(m, order[1..], k);
    } else {
      assert (order + [k])[1..] == order[1..] + [k];
      EntriesBytesSnoc(m, order[1..], k);
      var e := m[order[0]];
      var head := [KeyByte(Kind(e), order[0])] + PayloadBytes(e);
      var last := [KeyByte(Kind(m[k]), k)] + PayloadBytes(m[k]);
      assert EntriesBytes(m, order[1..] + [k]) == EntriesBytes(m, order[1..]) + last;
      assert head + (EntriesBytes(m, order[1..]) + last) == head + EntriesBytes(m, order[1..]) + last;
    }
  }

  /** The keys written so far and the keys left partition the map's keys. */
  predicate Enumerating(order: seq<Byte>, left: set<Byte>, m: map<Byte, Entry>)
  {
    left <= m.Keys &&
    (forall i :: 0 <= i < |order| ==> order[i] in m && order[i] !in left) &&
    (forall k :: k in m && k !in left ==> k in order) &&
    (forall i, j :: 0 <= i < j < |order| ==> order[i] != order[j])
  }

  lemma EnumeratingStep(order: seq<Byte>, left: set<Byte>, m: map<Byte, Entry>, index: Byte)
    requires Enumerating(order, left, m) && index in left
    ensures Enumerating(order + [index], left - {index}, m)
  {
    var order' := order + [index];
    forall i | 0 <= i < |order'|
      ensures order'[i] in m && order'[i] !in left - {index}
    {
      if i < |order| {
        assert order'[i] == order[i];
      }
    }
  }

  lemma EnumeratingDone(order: seq<Byte>, m: map<Byte, Entry>)
    requires Enumerating(order, {}, m)
    ensures IsEnumeration(order, m)
  {
  }

  /** `Metadata.WriteTo`: the map is enumerated in an order of the method's choosing. */
  method WriteMetadataTo(m: map<Byte, Entry>, w: Writer) returns (n: int, err: Option<Error>, ghost order: seq<Byte>)
    modifies w
    ensures IsEnumeration(order, m)
    ensures Out(RW(n, err), w.State()) == WriteTo(m, order, old(w.State()))
  {
    var rw := new ReadWriter();
    var left := m.Keys;
    order := [];
    while left != {}
      invariant Enumerating(order, left, m)
      invariant Out(rw.State(), w.State()) == Partial(m, order, old(w.State()))
      decreases left
    {
      var index :| index in left;
      var payload := m[index];
      PartialStep(m, order, index, old(w.State()));
      EnumeratingStep(order, left, m, index);
      rw.Write(w, [KeyByte(Kind(payload), index)], "WriteTo");
      var pn, perr := WritePayloadTo(payload, w);
      rw.Must(pn, perr);
      order := order + [index];
      left := left - {index};
    }
    EnumeratingDone(order, m);
    rw.Write(w, [Terminator], "WriteTo");
    n, err := rw.Result();
  }
}
