/**
 * Reading back what `WriteTo` wrote: every well-formed tag comes back (with
 * the compound names reading gives), the stream after it is untouched, and
 * `Read` undoes `Write`.
 */
module NbtRoundTrip {
  import opened Integers
  import opened Opt
  import opened NbtTag
  import opened NbtRead

  lemma ReadFixedOf(v: int, k: nat, tail: seq<Byte>)
    requires k >= 1 && Fits(v, k)
    ensures ReadFixed(k, IntBytes(v, k) + tail) == Ok(v, k, tail)
  {
    ReadWriteRoundTrip(v, k, tail);
  }

  lemma EndByte(tail: seq<Byte>)
    ensures ReadFixed(1, [0] + tail) == Ok(0, 1, tail)
  {
    FitsWidths(0);
    assert IntBytes(0, 1) == [0];
    ReadFixedOf(0, 1, tail);
  }

  /** A `String` written with fewer than 65536 bytes reads back as itself. */
  lemma ReadStringOf(m: Mode, b: seq<Byte>, tail: seq<Byte>)
    requires |b| < 0x1_0000
    ensures var r := ReadString(m, StringBytes(b) + tail);
      r.Ok? && r.value == b && r.rest == tail
  {
    Widths();
    var s := StringBytes(b) + tail;
    assert s[..2] == BytesOf(|b|, 2);
    ValueOfBytesOf(|b|, 2);
    assert s[2..2 + |b|] == b;
    assert s[2 + |b|..] == tail;
  }

  lemma ReadElementsCons(k: nat, xs: seq<int>, acc: seq<int>, n: int, tail: seq<Byte>)
    requires k >= 1 && xs != [] && Fits(xs[0], k)
    ensures ReadElements(k, |xs|, acc, n, Elements(xs, k) + tail) ==
      ReadElements(k, |xs[1..]|, acc + [xs[0]], n + k, Elements(xs[1..], k) + tail)
  {
    var rest := Elements(xs[1..], k) + tail;
    assert Elements(xs, k) + tail == IntBytes(xs[0], k) + rest;
    ReadFixedOf(xs[0], k, rest);
  }

  /** The element loop reads back every element written, for both element widths. */
  lemma ReadElementsOf(k: nat, xs: seq<int>, acc: seq<int>, n: int, tail: seq<Byte>)
    requires k == 1 || k == 4
    requires forall i | 0 <= i < |xs| :: Fits(xs[i], k)
    ensures var r := ReadElements(k, |xs|, acc, n, Elements(xs, k) + tail);
      r.Ok? && r.value == acc + xs && r.rest == tail
  {
    if k == 1 { ReadBytesOf(xs, acc, n, tail); } else { ReadIntsOf(xs, acc, n, tail); }
  }

  lemma {:induction false} ReadBytesOf(xs: seq<int>, acc: seq<int>, n: int, tail: seq<Byte>)
    requires forall i | 0 <= i < |xs| :: Fits(xs[i], 1)
    ensures var r := ReadElements(1, |xs|, acc, n, Elements(xs, 1) + tail);
      r.Ok? && r.value == acc + xs && r.rest == tail
  {
    if xs == [] {
      assert acc + xs == acc;
    } else {
      ReadElementsCons(1, xs, acc, n, tail);
      ReadBytesOf(xs[1..], acc + [xs[0]], n + 1, tail);
      assert acc + [xs[0]] + xs[1..] == acc + xs;
    }
  }

  lemma {:induction false} ReadIntsOf(xs: seq<int>, acc: seq<int>, n: int, tail: seq<Byte>)
    requires forall i | 0 <= i < |xs| :: Fits(xs[i], 4)
    ensures var r := ReadElements(4, |xs|, acc, n, Elements(xs, 4) + tail);
      r.Ok? && r.value == acc + xs && r.rest == tail
  {
    if xs == [] {
      assert acc + xs == acc;
    } else {
      ReadElementsCons(4, xs, acc, n, tail);
      ReadIntsOf(xs[1..], acc + [xs[0]], n + 4, tail);
      assert acc + [xs[0]] + xs[1..] == acc + xs;
    }
  }

  /** An array of at most `MaxInt32` elements reads back as itself. */
  lemma ReadArrayOf(k: nat, xs: seq<int>, tail: seq<Byte>)
    requires (k == 1 || k == 4) && |xs| <= MaxInt32 && forall i | 0 <= i < |xs| :: Fits(xs[i], k)
    ensures var r := ReadArray(k, IntBytes(|xs|, 4) + Elements(xs, k) + tail);
      r.Ok? && r.value == xs && r.rest == tail
  {
    FitsWidths(|xs|);
    assert IntBytes(|xs|, 4) + Elements(xs, k) + tail == IntBytes(|xs|, 4) + (Elements(xs, k) + tail);
    ReadFixedOf(|xs|, 4, Elements(xs, k) + tail);
    ReadElementsOf(k, xs, [], 4, tail);
    assert [] + xs == xs;
  }

  lemma ReadIntegerOf(t: Tag, tail: seq<Byte>)
    requires t.TagByte? || t.TagShort? || t.TagInt? || t.TagLong?
    ensures ReadInteger(TypeOf(t), Payload(t) + tail) == Ok(t, |Payload(t)|, tail)
  {
    match t
    case TagByte(v) => FitsWidths(v); ReadFixedOf(v, 1, tail);
    case TagShort(v) => FitsWidths(v); ReadFixedOf(v, 2, tail);
    case TagInt(v) => FitsWidths(v); ReadFixedOf(v, 4, tail);
    case TagLong(v) => FitsWidths(v); ReadFixedOf(v, 8, tail);
  }

  lemma ReadRealOf(t: Tag, tail: seq<Byte>)
    requires t.TagFloat? || t.TagDouble?
    ensures ReadReal(TypeOf(t), Payload(t) + tail) == Ok(t, |Payload(t)|, tail)
  {
    Widths();
    var k := if t.TagFloat? then 4 else 8;
    var u := if t.TagFloat? then t.f else t.d;
    assert Payload(t) == BytesOf(u, k);
    var s := Payload(t) + tail;
    assert s[..k] == BytesOf(u, k);
    assert s[k..] == tail;
    ValueOfBytesOf(u, k);
  }

  lemma ReadArrayTagOf(t: Tag, tail: seq<Byte>)
    requires t.TagByteArray? || t.TagIntArray?
    requires WellFormed(t)
    ensures var r := ReadArrayTag(TypeOf(t), Payload(t) + tail);
      r.Ok? && r.value == t && r.rest == tail
  {
    match t
    case TagByteArray(xs) =>
      forall i | 0 <= i < |xs| ensures Fits(xs[i], 1) { FitsWidths(xs[i]); }
      ReadArrayOf(1, xs, tail);
    case TagIntArray(xs) =>
      forall i | 0 <= i < |xs| ensures Fits(xs[i], 4) { FitsWidths(xs[i]); }
      ReadArrayOf(4, xs, tail);
  }

  /** Every tag that holds no other tag reads back as itself. */
  lemma ReadLeafOf(m: Mode, t: Tag, tail: seq<Byte>)
    requires !t.TagList? && !t.TagCompound? && WellFormed(t)
    ensures var r := ReadLeaf(m, TypeOf(t), Payload(t) + tail);
      r.Ok? && r.value == t && r.rest == tail
  {
    match t
    case TagEnd =>
    case TagString(b) => ReadStringOf(m, b, tail);
    case TagByte(_) => ReadIntegerOf(t, tail);
    case TagShort(_) => ReadIntegerOf(t, tail);
    case TagInt(_) => ReadIntegerOf(t, tail);
    case TagLong(_) => ReadIntegerOf(t, tail);
    case TagFloat(_) => ReadRealOf(t, tail);
    case TagDouble(_) => ReadRealOf(t, tail);
    case TagByteArray(_) => ReadArrayTagOf(t, tail);
    case TagIntArray(_) => ReadArrayTagOf(t, tail);
  }

  /**
   * Every well-formed tag's payload reads back, by the `ReadFrom` of its own
   * type, as the tag with the names reading gives compounds, and leaves the
   * rest of the stream; corrected, the count is the payload's length.
   */
  lemma {:induction false} PayloadRoundTrip(m: Mode, t: Tag, tt: Int8, name: seq<Byte>, s: seq<Byte>, tail: seq<Byte>)
    requires WellFormed(t) && tt == TypeOf(t) && s == Payload(t) + tail
    ensures var r := ReadPayload(m, tt, name, s);
      r.Ok? && r.value == ReadBack(t, name) && r.rest == tail &&
      (m == Intended ==> r.n == |Payload(t)|)
    decreases t, 2
  {
    match t
    case TagList(typ, items) => ListRoundTrip(m, typ, items, tail);
    case TagCompound(_, fields) =>
      EntriesRoundTrip(m, fields, tail);
      assert Payload(t) + tail == Entries(fields) + [0] + tail;
    case _ => ReadLeafOf(m, t, tail);
  }

  lemma {:induction false} ListRoundTrip(m: Mode, typ: Int8, items: seq<Tag>, tail: seq<Byte>)
    requires WellFormed(TagList(typ, items))
    ensures var r := ReadList(m, Payload(TagList(typ, items)) + tail);
      r.Ok? && r.value == TagList(typ, ReadBackItems(items)) && r.rest == tail
    decreases TagList(typ, items), 1
  {
    var s := Payload(TagList(typ, items)) + tail;
    FitsWidths(typ);
    FitsWidths(|items|);
    assert s == IntBytes(typ, 1) + (IntBytes(|items|, 4) + (Payloads(items) + tail));
    ReadFixedOf(typ, 1, IntBytes(|items|, 4) + (Payloads(items) + tail));
    ReadFixedOf(|items|, 4, Payloads(items) + tail);
    if items == [] {
      assert Payloads(items) + tail == tail;
    } else {
      ItemsReadEach(m, typ, items, tail);
      ReadItemsOfPieces(m, typ, PayloadPieces(items), ReadBackItems(items), [], 5, tail);
      ConcatPayloadPieces(items);
      assert [] + ReadBackItems(items) == ReadBackItems(items);
    }
  }

  /** The byte strings ps, one after another. */
  function Concat(ps: seq<seq<Byte>>): (s: seq<Byte>)
  {
    if ps == [] then [] else ps[0] + Concat(ps[1..])
  }

  /**
   * Read from where it starts as a payload of type typ, each piece of ps
   * gives the matching element of xs and leaves the pieces after it.
   */
  ghost predicate ReadsEach(m: Mode, typ: Int8, ps: seq<seq<Byte>>, xs: seq<Tag>, tail: seq<Byte>)
    decreases ps
  {
    |xs| == |ps| &&
    (ps != [] ==>
      var r := ReadPayload(m, typ, [], Concat(ps) + tail);
      r.Ok? && r.value == xs[0] && r.rest == Concat(ps[1..]) + tail &&
      ReadsEach(m, typ, ps[1..], xs[1..], tail))
  }

  /**
   * One pass of the item loop: when the first item reads back as x and the
   * remaining j items as xs, all j + 1 items read back as x followed by xs.
   */
  lemma ReadItemsNext(m: Mode, typ: Int8, j: nat, acc: seq<Tag>, n: int, s: seq<Byte>, x: Tag, nx: int, rest: seq<Byte>, xs: seq<Tag>, tail: seq<Byte>)
    requires ReadPayload(m, typ, [], s) == Ok(x, nx, rest)
    requires var q := ReadItems(m, typ, j, acc + [x], n + nx, rest);
      q.Ok? && q.value == acc + [x] + xs && q.rest == tail
    ensures var r := ReadItems(m, typ, j + 1, acc, n, s);
      r.Ok? && r.value == acc + [x] + xs && r.rest == tail
  {
    ReadItemsStep(m, typ, j, acc, n, s, x, nx, rest);
  }

  /** The item loop reads one item and goes on with the others. */
  lemma ReadItemsStep(m: Mode, typ: Int8, j: nat, acc: seq<Tag>, n: int, s: seq<Byte>, x: Tag, nx: int, rest: seq<Byte>)
    requires ReadPayload(m, typ, [], s) == Ok(x, nx, rest)
    ensures ReadItems(m, typ, j + 1, acc, n, s) == ReadItems(m, typ, j, acc + [x], n + nx, rest)
  {
  }

  /** The item loop over pieces that each read back reads back all of them. */
  lemma {:induction false} ReadItemsOfPieces(m: Mode, typ: Int8, ps: seq<seq<Byte>>, xs: seq<Tag>, acc: seq<Tag>, n: int, tail: seq<Byte>)
    requires ReadsEach(m, typ, ps, xs, tail)
    ensures var r := ReadItems(m, typ, |ps|, acc, n, Concat(ps) + tail);
      r.Ok? && r.value == acc + xs && r.rest == tail
    decreases ps, 1
  {
    if ps == [] {
      assert acc + xs == acc;
    } else {
      ReadItemsOfMorePieces(m, typ, ps, xs, acc, n, tail);
    }
  }

  lemma {:induction false} ReadItemsOfMorePieces(m: Mode, typ: Int8, ps: seq<seq<Byte>>, xs: seq<Tag>, acc: seq<Tag>, n: int, tail: seq<Byte>)
    requires ps != [] && ReadsEach(m, typ, ps, xs, tail)
    ensures var r := ReadItems(m, typ, |ps|, acc, n, Concat(ps) + tail);
      r.Ok? && r.value == acc + xs && r.rest == tail
    decreases ps, 0
  {
    var p := ReadPayload(m, typ, [], Concat(ps) + tail);
    ReadItemsOfPieces(m, typ, ps[1..], xs[1..], acc + [xs[0]], n + p.n, tail);
    ReadItemsNext(m, typ, |ps[1..]|, acc, n, Concat(ps) + tail, xs[0], p.n, Concat(ps[1..]) + tail, xs[1..], tail);
    AppendFirst(acc, xs);
  }

  lemma AppendFirst<T>(acc: seq<T>, xs: seq<T>)
    requires xs != []
    ensures acc + [xs[0]] + xs[1..] == acc + xs
  {
    assert [xs[0]] + xs[1..] == xs;
  }

  lemma ConcatCons(ps: seq<seq<Byte>>, tail: seq<Byte>)
    requires ps != []
    ensures Concat(ps) + tail == ps[0] + (Concat(ps[1..]) + tail)
  {
  }

  /** The payloads of items, one piece each. */
  function PayloadPieces(items: seq<Tag>): (ps: seq<seq<Byte>>)
    ensures |ps| == |items|
  {
    if items == [] then [] else [Payload(items[0])] + PayloadPieces(items[1..])
  }

  lemma {:induction false} ConcatPayloadPieces(items: seq<Tag>)
    ensures Concat(PayloadPieces(items)) == Payloads(items)
  {
    if items != [] {
      var ps := PayloadPieces(items);
      assert ps[1..] == PayloadPieces(items[1..]);
      ConcatPayloadPieces(items[1..]);
    }
  }

  lemma {:induction false} ItemsReadEach(m: Mode, typ: Int8, items: seq<Tag>, tail: seq<Byte>)
    requires ItemsWellFormed(typ, items)
    ensures ReadsEach(m, typ, PayloadPieces(items), ReadBackItems(items), tail)
    decreases items, 0
  {
    if items != [] {
      var ps := PayloadPieces(items);
      assert ps[1..] == PayloadPieces(items[1..]);
      ConcatCons(ps, tail);
      PayloadRoundTrip(m, items[0], typ, [], Concat(ps) + tail, Concat(ps[1..]) + tail);
      ItemsReadEach(m, typ, items[1..], tail);
      assert ReadBackItems(items)[1..] == ReadBackItems(items[1..]);
    }
  }

  lemma {:induction false} EntryRoundTrip(m: Mode, f: Field, s: seq<Byte>, tail: seq<Byte>)
    requires FieldWellFormed(f) && s == Entry(f) + tail
    ensures var r := ReadEntry(m, s);
      r.Ok? && r.value == Some(ReadBackField(f)) && r.rest == tail
    decreases f, 0
  {
    var tt := TypeOf(f.tag);
    FitsWidths(tt);
    var afterKey := Payload(f.tag) + tail;
    var afterType := StringBytes(f.key) + afterKey;
    assert s == IntBytes(tt, 1) + afterType;
    ReadFixedOf(tt, 1, afterType);
    ReadStringOf(m, f.key, afterKey);
    PayloadRoundTrip(m, f.tag, tt, f.key, afterKey, tail);
  }

  /** The pass of the entry loop that reads the closing `TagEnd`. */
  lemma ReadEntriesLast(m: Mode, acc: seq<Field>, n: int, s: seq<Byte>, ne: int, rest: seq<Byte>)
    requires ReadEntry(m, s) == Ok(None, ne, rest)
    ensures ReadEntries(m, acc, n, s) == Ok(acc, n + ne, rest)
  {
  }

  /** Storing an entry whose key is not yet there appends it. */
  lemma PutNew(acc: seq<Field>, fields: seq<Field>, g: Field)
    requires KeySet(acc) !! KeySet(fields) && g.key in KeySet(fields)
    ensures Put(acc, g.key, g.tag) == acc + [g]
  {
    PutKeys(acc, g.key, g.tag);
  }

  /**
   * Read from where it starts, each piece of ps gives an entry holding the
   * matching field of fs and leaves the pieces after it.
   */
  ghost predicate EntriesEach(m: Mode, ps: seq<seq<Byte>>, fs: seq<Field>, tail: seq<Byte>)
    decreases ps
  {
    |fs| == |ps| &&
    (ps != [] ==>
      var r := ReadEntry(m, Concat(ps) + tail);
      r.Ok? && r.value == Some(fs[0]) && r.rest == Concat(ps[1..]) + tail &&
      EntriesEach(m, ps[1..], fs[1..], tail))
  }

  /** Storing fs into acc one after another appends each of them. */
  ghost predicate StoresInOrder(acc: seq<Field>, fs: seq<Field>)
    decreases fs
  {
    fs != [] ==>
      Put(acc, fs[0].key, fs[0].tag) == acc + [fs[0]] && StoresInOrder(acc + [fs[0]], fs[1..])
  }

  /**
   * The entry loop over pieces that each read back as an entry, followed by
   * a `TagEnd`, stores every entry in order and stops after the `TagEnd`.
   */
  lemma {:induction false} ReadEntriesOfPieces(m: Mode, ps: seq<seq<Byte>>, fs: seq<Field>, acc: seq<Field>, n: int, tail: seq<Byte>)
    requires EntriesEach(m, ps, fs, [0] + tail) && StoresInOrder(acc, fs)
    ensures var r := ReadEntries(m, acc, n, Concat(ps) + ([0] + tail));
      r.Ok? && r.value == acc + fs && r.rest == tail
    decreases ps, 1
  {
    if ps == [] {
      EndEntry(m, tail);
      ReadEntriesLast(m, acc, n, [0] + tail, 1, tail);
      assert acc + fs == acc;
    } else {
      ReadEntriesOfMorePieces(m, ps, fs, acc, n, tail);
    }
  }

  lemma {:induction false} ReadEntriesOfMorePieces(m: Mode, ps: seq<seq<Byte>>, fs: seq<Field>, acc: seq<Field>, n: int, tail: seq<Byte>)
    requires ps != [] && EntriesEach(m, ps, fs, [0] + tail) && StoresInOrder(acc, fs)
    ensures var r := ReadEntries(m, acc, n, Concat(ps) + ([0] + tail));
      r.Ok? && r.value == acc + fs && r.rest == tail
    decreases ps, 0
  {
    EntriesHead(m, ps, fs, acc, tail);
    var ne := ReadEntry(m, Concat(ps) + ([0] + tail)).n;
    var acc1 := acc + [fs[0]];
    ReadEntriesOfPieces(m, ps[1..], fs[1..], acc1, n + ne, tail);
    ReadEntriesFirst(m, ps, fs, acc, n, ne, tail);
  }

  /** What the first piece gives, and what holds of the pieces after it. */
  lemma EntriesHead(m: Mode, ps: seq<seq<Byte>>, fs: seq<Field>, acc: seq<Field>, tail: seq<Byte>)
    requires ps != [] && EntriesEach(m, ps, fs, [0] + tail) && StoresInOrder(acc, fs)
    ensures ReadEntry(m, Concat(ps) + ([0] + tail)).Ok?
    ensures EntriesEach(m, ps[1..], fs[1..], [0] + tail) && StoresInOrder(acc + [fs[0]], fs[1..])
  {
  }

  /**
   * One pass of the entry loop over pieces: the first piece is stored, and
   * the loop goes on with the pieces after it.
   */
  lemma ReadEntriesFirst(m: Mode, ps: seq<seq<Byte>>, fs: seq<Field>, acc: seq<Field>, n: int, ne: int, tail: seq<Byte>)
    requires ps != [] && EntriesEach(m, ps, fs, [0] + tail) && StoresInOrder(acc, fs)
    requires ne == ReadEntry(m, Concat(ps) + ([0] + tail)).n
    requires var q := ReadEntries(m, acc + [fs[0]], n + ne, Concat(ps[1..]) + ([0] + tail));
      q.Ok? && q.value == acc + [fs[0]] + fs[1..] && q.rest == tail
    ensures var r := ReadEntries(m, acc, n, Concat(ps) + ([0] + tail));
      r.Ok? && r.value == acc + fs && r.rest == tail
  {
    var s := Concat(ps) + ([0] + tail);
    var e := ReadEntry(m, s);
    assert e == Ok(Some(fs[0]), ne, Concat(ps[1..]) + ([0] + tail));
    ReadEntriesStep(m, acc, n, s, fs[0], ne, Concat(ps[1..]) + ([0] + tail));
    AppendFirst(acc, fs);
  }

  /** The entry loop stores an entry that reads and goes on after it. */
  lemma ReadEntriesStep(m: Mode, acc: seq<Field>, n: int, s: seq<Byte>, g: Field, ne: int, rest: seq<Byte>)
    requires ReadEntry(m, s) == Ok(Some(g), ne, rest)
    requires Put(acc, g.key, g.tag) == acc + [g]
    ensures ReadEntries(m, acc, n, s) == ReadEntries(m, acc + [g], n + ne, rest)
  {
  }

  /** Fields with distinct keys, none already in acc, are stored in order. */
  lemma {:induction false} DistinctStoresInOrder(acc: seq<Field>, fs: seq<Field>)
    requires Distinct(fs) && KeySet(acc) !! KeySet(fs)
    ensures StoresInOrder(acc, fs)
    decreases fs
  {
    if fs != [] {
      PutNew(acc, fs, fs[0]);
      KeySetSnoc(acc, fs[0]);
      KeySetTail(fs);
      DistinctStoresInOrder(acc + [fs[0]], fs[1..]);
    }
  }

  lemma KeySetSnoc(acc: seq<Field>, g: Field)
    ensures KeySet(acc + [g]) == KeySet(acc) + {g.key}
  {
    KeySetAppend(acc, [g]);
  }

  lemma {:induction false} KeySetAppend(a: seq<Field>, b: seq<Field>)
    ensures KeySet(a + b) == KeySet(a) + KeySet(b)
  {
    if a != [] {
      assert (a + b)[1..] == a[1..] + b;
      KeySetAppend(a[1..], b);
    } else {
      assert a + b == b;
    }
  }

  lemma KeySetTail(fs: seq<Field>)
    requires fs != []
    ensures KeySet(fs) == {fs[0].key} + KeySet(fs[1..])
  {
  }

  /** The entries of fields, one piece each. */
  function EntryPieces(fields: seq<Field>): (ps: seq<seq<Byte>>)
    ensures |ps| == |fields|
  {
    if fields == [] then [] else [Entry(fields[0])] + EntryPieces(fields[1..])
  }

  lemma {:induction false} ConcatEntryPieces(fields: seq<Field>)
    ensures Concat(EntryPieces(fields)) == Entries(fields)
  {
    if fields != [] {
      var ps := EntryPieces(fields);
      assert ps[1..] == EntryPieces(fields[1..]);
      ConcatEntryPieces(fields[1..]);
    }
  }

  lemma {:induction false} FieldsReadEach(m: Mode, fields: seq<Field>, tail: seq<Byte>)
    requires FieldsWellFormed(fields)
    ensures EntriesEach(m, EntryPieces(fields), ReadBackFields(fields), tail)
    decreases fields, 0
  {
    if fields != [] {
      var ps := EntryPieces(fields);
      assert ps[1..] == EntryPieces(fields[1..]);
      ConcatCons(ps, tail);
      EntryRoundTrip(m, fields[0], Concat(ps) + tail, Concat(ps[1..]) + tail);
      FieldsReadEach(m, fields[1..], tail);
      assert ReadBackFields(fields)[1..] == ReadBackFields(fields[1..]);
    }
  }

  /** Reading back keeps every key, so the keys stay distinct. */
  lemma {:induction false} ReadBackFieldsKeys(fields: seq<Field>)
    requires FieldsWellFormed(fields)
    ensures KeySet(ReadBackFields(fields)) == KeySet(fields)
    ensures Distinct(ReadBackFields(fields))
  {
    if fields != [] {
      ReadBackFieldsKeys(fields[1..]);
      assert ReadBackFields(fields)[1..] == ReadBackFields(fields[1..]);
    }
  }

  /** A compound's entries and `TagEnd` read back as its fields. */
  lemma EntriesRoundTrip(m: Mode, fields: seq<Field>, tail: seq<Byte>)
    requires FieldsWellFormed(fields)
    ensures var r := ReadEntries(m, [], 0, Entries(fields) + [0] + tail);
      r.Ok? && r.value == ReadBackFields(fields) && r.rest == tail
    decreases fields, 1
  {
    FieldsReadEach(m, fields, [0] + tail);
    ReadBackFieldsKeys(fields);
    DistinctStoresInOrder([], ReadBackFields(fields));
    ReadEntriesOfPieces(m, EntryPieces(fields), ReadBackFields(fields), [], 0, tail);
    ConcatEntryPieces(fields);
    assert Entries(fields) + [0] + tail == Entries(fields) + ([0] + tail);
    assert [] + ReadBackFields(fields) == ReadBackFields(fields);
  }

  /** A `TagEnd` byte ends the compound. */
  lemma EndEntry(m: Mode, tail: seq<Byte>)
    ensures ReadEntry(m, [0] + tail) == Ok(None, 1, tail)
  {
    EndByte(tail);
  }

  /**
   * `Read` undoes `Write`: the compound comes back with its name and with
   * every entry (nested compounds named after their keys), and the rest of
   * the stream is left as it was.
   */
  lemma ReadWrite(m: Mode, name: seq<Byte>, fields: seq<Field>, tail: seq<Byte>)
    requires |name| < 0x1_0000 && FieldsWellFormed(fields)
    ensures Read(m, Write(name, fields) + tail) == Parsed(TagCompound(name, ReadBackFields(fields)), tail)
  {
    var body := Entries(fields) + [0] + tail;
    var afterType := StringBytes(name) + body;
    assert Write(name, fields) + tail == IntBytes(CompoundType, 1) + afterType;
    FitsWidths(CompoundType);
    ReadFixedOf(CompoundType, 1, afterType);
    ReadStringOf(m, name, body);
    EntriesRoundTrip(m, fields, tail);
    ReadSteps(m, IntBytes(CompoundType, 1) + afterType, afterType, name, body, ReadBackFields(fields), tail);
  }

  /** The three steps of `Read`: the type byte, the name, the entries. */
  lemma ReadSteps(m: Mode, s: seq<Byte>, afterType: seq<Byte>, name: seq<Byte>, body: seq<Byte>, fields: seq<Field>, tail: seq<Byte>)
    requires ReadFixed(1, s) == Ok(CompoundType, 1, afterType)
    requires var r := ReadString(m, afterType); r.Ok? && r.value == name && r.rest == body
    requires var r := ReadEntries(m, [], 0, body); r.Ok? && r.value == fields && r.rest == tail
    ensures Read(m, s) == Parsed(TagCompound(name, fields), tail)
  {
  }


}
