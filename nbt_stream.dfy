/**
 * The `ReadFrom` and `WriteTo` loops as the source writes them: the element
 * loop of the arrays, the item loop of `List`, the entry loop of `Compound`
 * and the dispatch on a tag's type. Each read is proved to compute what the
 * matching function of `NbtRead` specifies; each write puts out the bytes
 * `Payload` specifies and reports the count `WriteCount` specifies.
 */
module NbtStream {
  import opened Integers
  import opened NbtTag
  import R = NbtRead

  /** `ByteArray.ReadFrom` and `IntArray.ReadFrom` up to the tag: the length, then the element loop. */
  method ReadArray(k: nat, s: seq<Byte>) returns (r: R.Res<seq<int>>)
    requires k >= 1
    ensures r == R.ReadArray(k, s)
  {
    var head := R.ReadFixed(4, s);
    if head.Fail? {
      return R.Fail(head.e);
    }
    var length := head.value;
    if length < 0 {
      return R.Fail(R.Panic("makeslice: len out of range"));
    }
    var acc: seq<int> := [];
    var n := head.n;
    var rest := head.rest;
    for i := 0 to length
      invariant |acc| == i
      invariant R.ReadElements(k, length, [], head.n, head.rest) == R.ReadElements(k, length - i, acc, n, rest)
    {
      var x := R.ReadFixed(k, rest);
      if x.Fail? {
        return R.Fail(x.e);
      }
      assert R.ReadElements(k, length - i, acc, n, rest) ==
        R.ReadElements(k, length - i - 1, acc + [x.value], n + x.n, x.rest);
      acc := acc + [x.value];
      n := n + x.n;
      rest := x.rest;
    }
    return R.Ok(acc, n, rest);
  }

  /** The two array tags' `ReadFrom`: elements of 1 byte (`ByteArray`) or 4 (`IntArray`). */
  method ReadArrayTag(tt: Int8, s: seq<Byte>) returns (r: R.Res<Tag>)
    requires tt == 7 || tt == 11
    ensures r == R.ReadArrayTag(tt, s)
  {
    Widths();
    var a := ReadArray(if tt == 7 then 1 else 4, s);
    if a.Fail? {
      return R.Fail(a.e);
    }
    if tt == 7 {
      return R.Ok(TagByteArray(a.value), a.n, a.rest);
    }
    return R.Ok(TagIntArray(a.value), a.n, a.rest);
  }

  /** `ReadFrom` on a fresh tag of type tt (a compound being named `name`). */
  method ReadPayload(m: Mode, tt: Int8, name: seq<Byte>, s: seq<Byte>) returns (r: R.Res<Tag>)
    ensures r == R.ReadPayload(m, tt, name, s)
    decreases |s|, 2
  {
    if tt == 9 {
      r := ReadList(m, s);
    } else if tt == 10 {
      var e := ReadEntries(m, s);
      if e.Fail? {
        return R.Fail(e.e);
      }
      r := R.Ok(TagCompound(name, e.value), e.n, e.rest);
    } else if tt == 7 || tt == 11 {
      r := ReadArrayTag(tt, s);
    } else {
      r := R.ReadLeaf(m, tt, s);
    }
  }

  /** `List.ReadFrom`: the element type, the length, then the item loop when the length is positive. */
  method ReadList(m: Mode, s: seq<Byte>) returns (r: R.Res<Tag>)
    ensures r == R.ReadList(m, s)
    decreases |s|, 1
  {
    var t := R.ReadFixed(1, s);
    if t.Fail? {
      return R.Fail(t.e);
    }
    var l := R.ReadFixed(4, t.rest);
    if l.Fail? {
      return R.Fail(l.e);
    }
    FitsWidths(t.value);
    var typ: Int8 := t.value;
    var length := l.value;
    if length <= 0 {
      return R.Ok(TagList(typ, []), t.n + l.n, l.rest);
    }
    var items := ReadItems(m, typ, length, t.n + l.n, l.rest);
    if items.Fail? {
      return R.Fail(items.e);
    }
    return R.Ok(TagList(typ, items.value), items.n, items.rest);
  }

  /** The item loop of `List.ReadFrom`: `length` items of type `typ`, each read on a fresh tag. */
  method ReadItems(m: Mode, typ: Int8, length: nat, n0: int, s: seq<Byte>) returns (r: R.Res<seq<Tag>>)
    ensures r == R.ReadItems(m, typ, length, [], n0, s)
    decreases |s|, 3
  {
    var items: seq<Tag> := [];
    var n := n0;
    var rest := s;
    for i := 0 to length
      invariant |rest| <= |s|
      invariant R.ReadItems(m, typ, length, [], n0, s) == R.ReadItems(m, typ, length - i, items, n, rest)
    {
      var x := ReadPayload(m, typ, [], rest);
      if x.Fail? {
        return R.Fail(x.e);
      }
      assert R.ReadItems(m, typ, length - i, items, n, rest) ==
        R.ReadItems(m, typ, length - i - 1, items + [x.value], n + x.n, x.rest);
      items := items + [x.value];
      n := n + x.n;
      rest := x.rest;
    }
    return R.Ok(items, n, rest);
  }

  /** One pass of the loop of `Compound.ReadFrom`: a type byte, then a key and a payload unless it is `TagEnd`. */
  method ReadEntry(m: Mode, s: seq<Byte>) returns (r: R.Res<Opt.Option<Field>>)
    ensures r == R.ReadEntry(m, s)
    decreases |s|, 0
  {
    var t := R.ReadFixed(1, s);
    if t.Fail? {
      if m == AsWritten {
        return R.Ok(Opt.None, 1, s);
      }
      return R.Fail(t.e);
    }
    FitsWidths(t.value);
    var tt: Int8 := t.value;
    if tt == EndType {
      return R.Ok(Opt.None, t.n, t.rest);
    }
    var key := R.ReadString(m, t.rest);
    if key.Fail? {
      return R.Fail(key.e);
    }
    if !ValidType(tt) {
      return R.Fail(R.WrongType(tt));
    }
    var v := ReadPayload(m, tt, key.value, key.rest);
    if v.Fail? {
      return R.Fail(v.e);
    }
    return R.Ok(Opt.Some(Field(key.value, v.value)), t.n + key.n + v.n, v.rest);
  }

  /** The loop of `Compound.ReadFrom`: entries stored one by one until `TagEnd`. */
  method ReadEntries(m: Mode, s: seq<Byte>) returns (r: R.Res<seq<Field>>)
    ensures r == R.ReadEntries(m, [], 0, s)
    decreases |s|, 1
  {
    var fields: seq<Field> := [];
    var n := 0;
    var rest := s;
    while true
      invariant |rest| <= |s|
      invariant R.ReadEntries(m, [], 0, s) == R.ReadEntries(m, fields, n, rest)
      decreases |rest|
    {
      var e := ReadEntry(m, rest);
      EntriesStep(m, fields, n, rest, e);
      if e.Fail? {
        return R.Fail(e.e);
      }
      if e.value.None? {
        return R.Ok(fields, n + e.n, e.rest);
      }
      var f := e.value.value;
      fields := Put(fields, f.key, f.tag);
      n := n + e.n;
      rest := e.rest;
    }
  }

  /** One turn of the entry loop, in the shape the loop takes it. */
  lemma EntriesStep(m: Mode, acc: seq<Field>, n: int, s: seq<Byte>, e: R.Res<Opt.Option<Field>>)
    requires e == R.ReadEntry(m, s)
    ensures e.Fail? ==> R.ReadEntries(m, acc, n, s) == R.Fail(e.e)
    ensures e.Ok? && e.value.None? ==> R.ReadEntries(m, acc, n, s) == R.Ok(acc, n + e.n, e.rest)
    ensures e.Ok? && e.value.Some? ==> |e.rest| < |s|
    ensures e.Ok? && e.value.Some? ==>
      R.ReadEntries(m, acc, n, s) == R.ReadEntries(m, Put(acc, e.value.value.key, e.value.value.tag), n + e.n, e.rest)
  {
    match e
    case Fail(_) =>
    case Ok(None, _, _) =>
    case Ok(Some(f), ne, r1) => EntriesSome(m, acc, n, s, f, ne, r1);
  }

  lemma EntriesSome(m: Mode, acc: seq<Field>, n: int, s: seq<Byte>, f: Field, ne: int, r1: seq<Byte>)
    requires R.ReadEntry(m, s) == R.Ok(Opt.Some(f), ne, r1)
    ensures R.ReadEntries(m, acc, n, s) == R.ReadEntries(m, Put(acc, f.key, f.tag), n + ne, r1)
  {
  }

  /** `Read`: the `TagCompound` type byte, the compound's name, then its entries. */
  method Read(m: Mode, s: seq<Byte>) returns (r: R.Parsed)
    ensures r == R.Read(m, s)
  {
    var t := R.ReadFixed(1, s);
    if t.Fail? {
      return R.Rejected(t.e);
    }
    if t.value != CompoundType {
      return R.Rejected(R.InvalidTop);
    }
    var name := R.ReadString(m, t.rest);
    if name.Fail? {
      return R.Rejected(name.e);
    }
    var e := ReadEntries(m, name.rest);
    if e.Fail? {
      return R.Rejected(e.e);
    }
    return R.Parsed(TagCompound(name.value, e.value), e.rest);
  }

  /** The element loop of `ByteArray.WriteTo` and `IntArray.WriteTo`: each element in k bytes. */
  method WriteElements(xs: seq<int>, k: nat) returns (out: seq<Byte>, n: int)
    requires k >= 1
    ensures out == Elements(xs, k) && n == k * |xs|
  {
    out, n := [], 0;
    for i := 0 to |xs|
      invariant out + Elements(xs[i..], k) == Elements(xs, k)
      invariant n == k * i
    {
      assert Elements(xs[i..], k) == IntBytes(xs[i], k) + Elements(xs[i + 1..], k);
      out := out + IntBytes(xs[i], k);
      n := n + k;
    }
    assert xs[|xs|..] == [];
  }

  /** A tag's `WriteTo`: the payload's bytes, and the count the tag reports. */
  method WritePayload(m: Mode, t: Tag) returns (out: seq<Byte>, n: int)
    ensures out == Payload(t) && n == WriteCount(m, t)
    decreases t
  {
    match t
    case TagList(typ, items) =>
      var body, c := WriteItems(m, items);
      out, n := IntBytes(typ, 1) + IntBytes(|items|, 4) + body, 5 + c;
    case TagCompound(_, fields) =>
      var body, c := WriteEntries(m, fields);
      out, n := body + [0], c + 1;
    case TagByteArray(xs) =>
      var body, c := WriteElements(xs, 1);
      out, n := IntBytes(|xs|, 4) + body, 4 + c;
    case TagIntArray(xs) =>
      var body, c := WriteElements(xs, 4);
      out, n := IntBytes(|xs|, 4) + body, 4 + c;
    case _ =>
      out, n := Payload(t), WriteCount(m, t);
  }

  /** The item loop of `List.WriteTo`: each item's payload, the counts added up. */
  method WriteItems(m: Mode, items: seq<Tag>) returns (out: seq<Byte>, n: int)
    ensures out == Payloads(items) && n == WriteCounts(m, items)
    decreases items
  {
    out, n := [], 0;
    for i := 0 to |items|
      invariant out + Payloads(items[i..]) == Payloads(items)
      invariant n + WriteCounts(m, items[i..]) == WriteCounts(m, items)
    {
      var body, c := WritePayload(m, items[i]);
      ItemsAt(m, items, i);
      AppendAssoc(out, body, Payloads(items[i + 1..]));
      out, n := out + body, n + c;
    }
    assert items[|items|..] == [];
  }

  /** The loop of `Compound.WriteTo`: each entry's type byte, key and payload. */
  method WriteEntries(m: Mode, fields: seq<Field>) returns (out: seq<Byte>, n: int)
    ensures out == Entries(fields) && n == EntriesCount(m, fields)
    decreases fields
  {
    out, n := [], 0;
    for i := 0 to |fields|
      invariant out + Entries(fields[i..]) == Entries(fields)
      invariant n + EntriesCount(m, fields[i..]) == EntriesCount(m, fields)
    {
      var f := fields[i];
      var body, c := WritePayload(m, f.tag);
      var e := IntBytes(TypeOf(f.tag), 1) + StringBytes(f.key) + body;
      EntriesAt(m, fields, i);
      AppendAssoc(out, e, Entries(fields[i + 1..]));
      out := out + e;
      n := n + (1 + StringCount(m, f.key) + c);
    }
    assert fields[|fields|..] == [];
  }

  /** The items from i on: item i, then those after it. */
  lemma ItemsAt(m: Mode, items: seq<Tag>, i: nat)
    requires i < |items|
    ensures Payloads(items[i..]) == Payload(items[i]) + Payloads(items[i + 1..])
    ensures WriteCounts(m, items[i..]) == WriteCount(m, items[i]) + WriteCounts(m, items[i + 1..])
  {
    assert items[i..][0] == items[i] && items[i..][1..] == items[i + 1..];
  }

  /** The entries from i on: entry i, then those after it. */
  lemma EntriesAt(m: Mode, fields: seq<Field>, i: nat)
    requires i < |fields|
    ensures Entries(fields[i..]) == Entry(fields[i]) + Entries(fields[i + 1..])
    ensures EntriesCount(m, fields[i..]) == EntryCount(m, fields[i]) + EntriesCount(m, fields[i + 1..])
  {
    assert fields[i..][0] == fields[i] && fields[i..][1..] == fields[i + 1..];
  }

  lemma AppendAssoc(a: seq<Byte>, b: seq<Byte>, c: seq<Byte>)
    ensures a + (b + c) == (a + b) + c
  {
  }

  /** `Write`: the `TagCompound` byte, the name as a `String`, then the compound's `WriteTo`. */
  method Write(name: seq<Byte>, fields: seq<Field>) returns (out: seq<Byte>)
    ensures out == NbtTag.Write(name, fields)
  {
    var body, _ := WritePayload(Intended, TagCompound(name, fields));
    out := IntBytes(CompoundType, 1) + StringBytes(name) + body;
  }
}
