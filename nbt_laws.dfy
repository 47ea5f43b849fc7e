/**
 * Properties of the NBT tag model: what `Size` and the `WriteTo` counts say
 * about the bytes on the wire, how `Lookup` walks a path, and what reading
 * back changes in a tag.
 */
module NbtLaws {
  import opened Integers
  import opened Opt
  import opened NbtTag

  /**
   * With an `IntArray` counted at 4 bytes per element, `Size` is the length
   * of the payload plus the slack compounds claim for their own name and
   * their keys' length prefixes.
   */
  lemma {:induction false} SizeIsWireLength(t: Tag)
    ensures Size(Intended, t) == |Payload(t)| + Slack(t)
    decreases t
  {
    match t
    case TagList(_, items) => SizesAreWireLength(items);
    case TagCompound(_, fields) => FieldSizesAreWireLength(fields);
    case TagByteArray(xs) => ElementsLength(xs, 1);
    case TagIntArray(xs) => ElementsLength(xs, 4);
    case _ =>
  }

  lemma {:induction false} SizesAreWireLength(items: seq<Tag>)
    ensures Sizes(Intended, items) == |Payloads(items)| + Slacks(items)
    decreases items
  {
    if items != [] {
      SizeIsWireLength(items[0]);
      SizesAreWireLength(items[1..]);
    }
  }

  lemma {:induction false} FieldSizeIsWireLength(f: Field)
    ensures FieldSize(Intended, f) == |Entry(f)| + FieldSlack(f)
    decreases f
  {
    SizeIsWireLength(f.tag);
  }

  lemma {:induction false} FieldSizesAreWireLength(fields: seq<Field>)
    ensures FieldSizes(Intended, fields) == |Entries(fields)| + FieldSlacks(fields)
    decreases fields
  {
    if fields != [] {
      FieldSizeIsWireLength(fields[0]);
      FieldSizesAreWireLength(fields[1..]);
    }
  }

  /** A tag without compounds has a `Size` equal to the bytes its `WriteTo` writes. */
  lemma FlatSizeIsExact(t: Tag)
    requires Slack(t) == 0
    ensures Size(Intended, t) == |Payload(t)|
  {
    SizeIsWireLength(t);
  }

  /** Counting a `String` with its prefix, the count `WriteTo` reports is the number of bytes written. */
  lemma {:induction false} WriteCountIsLength(t: Tag)
    ensures WriteCount(Intended, t) == |Payload(t)|
    decreases t
  {
    match t
    case TagList(_, items) => WriteCountsAreLength(items);
    case TagCompound(_, fields) => EntriesCountIsLength(fields);
    case TagByteArray(xs) => ElementsLength(xs, 1);
    case TagIntArray(xs) => ElementsLength(xs, 4);
    case _ =>
  }

  lemma {:induction false} WriteCountsAreLength(items: seq<Tag>)
    ensures WriteCounts(Intended, items) == |Payloads(items)|
    decreases items
  {
    if items != [] {
      WriteCountIsLength(items[0]);
      WriteCountsAreLength(items[1..]);
    }
  }

  lemma {:induction false} EntryCountIsLength(f: Field)
    ensures EntryCount(Intended, f) == |Entry(f)|
    decreases f
  {
    WriteCountIsLength(f.tag);
  }

  lemma {:induction false} EntriesCountIsLength(fields: seq<Field>)
    ensures EntriesCount(Intended, fields) == |Entries(fields)|
    decreases fields
  {
    if fields != [] {
      EntryCountIsLength(fields[0]);
      EntriesCountIsLength(fields[1..]);
    }
  }

  /** The first '/' of a path is the first '/' of any path that starts with it. */
  lemma {:induction false} FirstSlashOfJoin(a: seq<Byte>, b: seq<Byte>)
    ensures FirstSlash(a + b) == if FirstSlash(a) < |a| then FirstSlash(a) else |a| + FirstSlash(b)
  {
    if a == [] {
      assert a + b == b;
    } else if a[0] != '/' as Byte {
      FirstSlashOfJoin(a[1..], b);
      assert (a + b)[1..] == a[1..] + b;
    }
  }

  /**
   * Looking up "a/b" is looking up a, then b in what a names; nil anywhere
   * on the way gives nil.
   */
  lemma {:induction false} LookupJoin(t: Tag, a: seq<Byte>, b: seq<Byte>)
    ensures Lookup(t, a + ['/' as Byte] + b) ==
      match Lookup(t, a)
      case None => None
      case Some(u) => Lookup(u, b)
    decreases |a|
  {
    if t.TagCompound? {
      var p := a + ['/' as Byte] + b;
      var i := FirstSlash(a);
      FirstSlashOfJoin(a, ['/' as Byte] + b);
      assert p == a + (['/' as Byte] + b);
      assert FirstSlash(['/' as Byte] + b) == 0;
      assert FirstSlash(p) == i;
      assert p[..i] == a[..i];
      match Find(t.fields, a[..i])
      case None =>
      case Some(u) =>
        if i < |a| {
          assert p[i + 1..] == a[i + 1..] + ['/' as Byte] + b;
          LookupJoin(u, a[i + 1..], b);
        } else {
          assert p[i + 1..] == b;
        }
    }
  }

  /** A key without '/' looks up exactly that entry of a compound. */
  lemma LookupKey(name: seq<Byte>, fields: seq<Field>, key: seq<Byte>)
    requires forall j | 0 <= j < |key| :: key[j] != '/' as Byte
    ensures Lookup(TagCompound(name, fields), key) == Find(fields, key)
  {
    var i := FirstSlash(key);
    assert i == |key|;
    assert key[..i] == key;
  }

  /** Any tag other than a compound answers nil to every path. */
  lemma LookupLeaf(t: Tag, path: seq<Byte>)
    requires !t.TagCompound?
    ensures Lookup(t, path) == None
  {
  }

  /** Reading back changes no byte on the wire. */
  lemma {:induction false} ReadBackKeepsPayload(t: Tag, name: seq<Byte>)
    ensures Payload(ReadBack(t, name)) == Payload(t)
    decreases t
  {
    match t
    case TagList(_, items) => ReadBackKeepsPayloads(items);
    case TagCompound(_, fields) => ReadBackKeepsEntries(fields);
    case _ =>
  }

  lemma {:induction false} ReadBackKeepsPayloads(items: seq<Tag>)
    ensures Payloads(ReadBackItems(items)) == Payloads(items)
    decreases items
  {
    if items != [] {
      ReadBackKeepsPayload(items[0], []);
      ReadBackKeepsPayloads(items[1..]);
      assert ReadBackItems(items)[1..] == ReadBackItems(items[1..]);
    }
  }

  lemma {:induction false} ReadBackKeepsEntry(f: Field)
    ensures Entry(ReadBackField(f)) == Entry(f)
    decreases f
  {
    ReadBackKeepsPayload(f.tag, f.key);
  }

  lemma {:induction false} ReadBackKeepsEntries(fields: seq<Field>)
    ensures Entries(ReadBackFields(fields)) == Entries(fields)
    decreases fields
  {
    if fields != [] {
      ReadBackKeepsEntry(fields[0]);
      ReadBackKeepsEntries(fields[1..]);
      assert ReadBackFields(fields)[1..] == ReadBackFields(fields[1..]);
    }
  }

  /** Reading back twice is reading back once. */
  lemma {:induction false} ReadBackIdempotent(t: Tag, name: seq<Byte>)
    ensures ReadBack(ReadBack(t, name), name) == ReadBack(t, name)
    decreases t
  {
    match t
    case TagList(_, items) => ReadBackItemsIdempotent(items);
    case TagCompound(_, fields) => ReadBackFieldsIdempotent(fields);
    case _ =>
  }

  lemma {:induction false} ReadBackItemsIdempotent(items: seq<Tag>)
    ensures ReadBackItems(ReadBackItems(items)) == ReadBackItems(items)
    decreases items
  {
    if items != [] {
      ReadBackIdempotent(items[0], []);
      ReadBackItemsIdempotent(items[1..]);
      assert ReadBackItems(items)[1..] == ReadBackItems(items[1..]);
    }
  }

  lemma {:induction false} ReadBackFieldsIdempotent(fields: seq<Field>)
    ensures ReadBackFields(ReadBackFields(fields)) == ReadBackFields(fields)
    decreases fields
  {
    if fields != [] {
      ReadBackIdempotent(fields[0].tag, fields[0].key);
      ReadBackFieldsIdempotent(fields[1..]);
      assert ReadBackFields(fields)[1..] == ReadBackFields(fields[1..]);
    }
  }
}
