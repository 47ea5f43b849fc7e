/**
 * NBT tags, the named binary tags of Minecraft's world and item data, as
 * values: the bytes `WriteTo` puts on the wire for a tag's payload, the
 * count it reports, the `Size` each tag claims, and `Lookup` by a
 * slash-separated path through compounds.
 *
 * A Go `Compound` holds a `map[string]Tag`; here it holds its entries as a
 * sequence of fields with distinct keys, in the order a `range` over the map
 * happens to visit them.
 */
module NbtTag {
  import opened Integers
  import opened Opt

  /**
   * The code as written, or with its evident slips corrected: the `IntArray`
   * size, the byte counts a `String` reports, and a compound body that ends
   * without its `TagEnd` byte.
   */
  datatype Mode = AsWritten | Intended

  /** The `TagType` codes of the compound and of the end marker. */
  const EndType: Int8 := 0
  const CompoundType: Int8 := 10

  /** `TagType.New` makes a tag for exactly these codes and returns nil for any other. */
  predicate ValidType(tt: int)
  {
    0 <= tt <= 11
  }

  datatype Tag =
    | TagEnd
    | TagByte(b: Int8)
    | TagShort(s: Int16)
    | TagInt(i: Int32)
    | TagLong(l: Int64)
    | TagFloat(f: Float32Bits)
    | TagDouble(d: Float64Bits)
    | TagByteArray(bytes: seq<Int8>)
    | TagString(str: seq<Byte>)
    | TagList(typ: Int8, items: seq<Tag>)
    | TagCompound(name: seq<Byte>, fields: seq<Field>)
    | TagIntArray(ints: seq<Int32>)

  /** One key-value pair of a compound. */
  datatype Field = Field(key: seq<Byte>, tag: Tag)

  /** `Type()` of each tag. */
  function TypeOf(t: Tag): (tt: Int8)
    ensures ValidType(tt)
    ensures tt == EndType <==> t.TagEnd?
    ensures tt == CompoundType <==> t.TagCompound?
  {
    match t
    case TagEnd => 0
    case TagByte(_) => 1
    case TagShort(_) => 2
    case TagInt(_) => 3
    case TagLong(_) => 4
    case TagFloat(_) => 5
    case TagDouble(_) => 6
    case TagByteArray(_) => 7
    case TagString(_) => 8
    case TagList(_, _) => 9
    case TagCompound(_, _) => 10
    case TagIntArray(_) => 11
  }

  lemma Widths()
    ensures Pow256(1) == 0x100 && Pow256(2) == 0x1_0000
    ensures Pow256(4) == 0x1_0000_0000 && Pow256(8) == 0x1_0000_0000_0000_0000
  {
  }

  /** The k big-endian bytes Go writes for the integer v converted to a k-byte signed type. */
  function IntBytes(v: int, k: nat): (s: seq<Byte>)
    requires k >= 1
    ensures |s| == k
  {
    Encode(Wrap(v, k), k)
  }

  /** The elements of an array, each written in k bytes. */
  function Elements(xs: seq<int>, k: nat): (s: seq<Byte>)
    requires k >= 1
  {
    if xs == [] then [] else IntBytes(xs[0], k) + Elements(xs[1..], k)
  }

  /** Each element takes k bytes. */
  lemma {:induction false} ElementsLength(xs: seq<int>, k: nat)
    requires k >= 1
    ensures |Elements(xs, k)| == k * |xs|
  {
    if xs != [] {
      ElementsLength(xs[1..], k);
    }
  }

  /** A `String` on the wire: a `uint16` byte count (wrapping) and then every byte. */
  function StringBytes(b: seq<Byte>): (s: seq<Byte>)
    ensures |s| == 2 + |b|
  {
    BytesOf(WrapUnsigned(|b|, 2), 2) + b
  }

  /** The bytes a tag's `WriteTo` writes: its payload, without type byte or name. */
  function Payload(t: Tag): (s: seq<Byte>)
    decreases t
  {
    match t
    case TagEnd => [0]
    case TagByte(v) => IntBytes(v, 1)
    case TagShort(v) => IntBytes(v, 2)
    case TagInt(v) => IntBytes(v, 4)
    case TagLong(v) => IntBytes(v, 8)
    case TagFloat(f) => Widths(); BytesOf(f, 4)
    case TagDouble(d) => Widths(); BytesOf(d, 8)
    case TagByteArray(xs) => IntBytes(|xs|, 4) + Elements(xs, 1)
    case TagString(b) => StringBytes(b)
    case TagList(typ, items) => IntBytes(typ, 1) + IntBytes(|items|, 4) + Payloads(items)
    case TagCompound(_, fields) => Entries(fields) + [0]
    case TagIntArray(xs) => IntBytes(|xs|, 4) + Elements(xs, 4)
  }

  /** The payloads of list items, one after the other. */
  function Payloads(items: seq<Tag>): seq<Byte>
    decreases items
  {
    if items == [] then [] else Payload(items[0]) + Payloads(items[1..])
  }

  /** One compound entry: type byte, key as a `String`, payload. */
  function Entry(f: Field): seq<Byte>
    decreases f
  {
    IntBytes(TypeOf(f.tag), 1) + StringBytes(f.key) + Payload(f.tag)
  }

  function Entries(fields: seq<Field>): seq<Byte>
    decreases fields
  {
    if fields == [] then [] else Entry(fields[0]) + Entries(fields[1..])
  }

  /**
   * `Write`: the `TagCompound` byte, the compound's name as a `String`, then
   * the compound's payload.
   */
  function Write(name: seq<Byte>, fields: seq<Field>): (s: seq<Byte>)
    ensures |s| == 3 + |name| + |Payload(TagCompound(name, fields))|
  {
    IntBytes(CompoundType, 1) + StringBytes(name) + Payload(TagCompound(name, fields))
  }

  /** The count a `String`'s `WriteTo` reports: the prefix value only, as written. */
  function StringCount(m: Mode, b: seq<Byte>): nat
  {
    if m == AsWritten then WrapUnsigned(|b|, 2) else 2 + |b|
  }

  /** The count `n` a tag's `WriteTo` reports. */
  function WriteCount(m: Mode, t: Tag): int
    decreases t
  {
    match t
    case TagEnd => 1
    case TagByte(_) => 1
    case TagShort(_) => 2
    case TagInt(_) => 4
    case TagLong(_) => 8
    case TagFloat(_) => 4
    case TagDouble(_) => 8
    case TagByteArray(xs) => 4 + |xs|
    case TagString(b) => StringCount(m, b)
    case TagList(_, items) => 5 + WriteCounts(m, items)
    case TagCompound(_, fields) => EntriesCount(m, fields) + 1
    case TagIntArray(xs) => 4 + 4 * |xs|
  }

  function WriteCounts(m: Mode, items: seq<Tag>): int
    decreases items
  {
    if items == [] then 0 else WriteCount(m, items[0]) + WriteCounts(m, items[1..])
  }

  function EntryCount(m: Mode, f: Field): int
    decreases f
  {
    1 + StringCount(m, f.key) + WriteCount(m, f.tag)
  }

  function EntriesCount(m: Mode, fields: seq<Field>): int
    decreases fields
  {
    if fields == [] then 0 else EntryCount(m, fields[0]) + EntriesCount(m, fields[1..])
  }

  /** `Size()` of each tag; an `IntArray` counts one byte per element as written. */
  function Size(m: Mode, t: Tag): int
    decreases t
  {
    match t
    case TagEnd => 1
    case TagByte(_) => 1
    case TagShort(_) => 2
    case TagInt(_) => 4
    case TagLong(_) => 8
    case TagFloat(_) => 4
    case TagDouble(_) => 8
    case TagByteArray(xs) => 4 + |xs|
    case TagString(b) => 2 + |b|
    case TagList(_, items) => 5 + Sizes(m, items)
    case TagCompound(_, fields) => 6 + FieldSizes(m, fields)
    case TagIntArray(xs) => if m == AsWritten then 4 + |xs| else 4 + 4 * |xs|
  }

  function Sizes(m: Mode, items: seq<Tag>): int
    decreases items
  {
    if items == [] then 0 else Size(m, items[0]) + Sizes(m, items[1..])
  }

  function FieldSize(m: Mode, f: Field): int
    decreases f
  {
    1 + 4 + |f.key| + Size(m, f.tag)
  }

  function FieldSizes(m: Mode, fields: seq<Field>): int
    decreases fields
  {
    if fields == [] then 0 else FieldSize(m, fields[0]) + FieldSizes(m, fields[1..])
  }

  /**
   * What `Size` counts beyond the payload: a compound claims 5 more bytes for
   * itself and 2 more for each entry's key, as if lengths took 4 bytes.
   */
  function Slack(t: Tag): nat
    decreases t
  {
    match t
    case TagList(_, items) => Slacks(items)
    case TagCompound(_, fields) => 5 + FieldSlacks(fields)
    case _ => 0
  }

  function Slacks(items: seq<Tag>): nat
    decreases items
  {
    if items == [] then 0 else Slack(items[0]) + Slacks(items[1..])
  }

  function FieldSlack(f: Field): nat
    decreases f
  {
    2 + Slack(f.tag)
  }

  function FieldSlacks(fields: seq<Field>): nat
    decreases fields
  {
    if fields == [] then 0 else FieldSlack(fields[0]) + FieldSlacks(fields[1..])
  }

  /** The keys of a compound's entries. */
  function KeySet(fields: seq<Field>): (ks: set<seq<Byte>>)
    ensures fields != [] ==> fields[0].key in ks
  {
    if fields == [] then {} else {fields[0].key} + KeySet(fields[1..])
  }

  /** A key is in `KeySet(fields)` exactly when some entry has it. */
  lemma {:induction false} KeySetHas(fields: seq<Field>, k: seq<Byte>)
    ensures k in KeySet(fields) <==> exists i | 0 <= i < |fields| :: fields[i].key == k
  {
    if fields != [] {
      KeySetHas(fields[1..], k);
      if exists i | 1 <= i < |fields| :: fields[i].key == k {
        var i :| 1 <= i < |fields| && fields[i].key == k;
        assert fields[1..][i - 1].key == k;
      }
    }
  }

  /** The keys are distinct, as they are in a Go map. */
  predicate Distinct(fields: seq<Field>)
  {
    fields == [] || (fields[0].key !in KeySet(fields[1..]) && Distinct(fields[1..]))
  }

  /** The value under a key, as `c.Value[key]` gives it. */
  function Find(fields: seq<Field>, key: seq<Byte>): (r: Option<Tag>)
    ensures r.None? <==> key !in KeySet(fields)
    ensures r.Some? ==> Field(key, r.value) in fields
  {
    if fields == [] then None
    else if fields[0].key == key then Some(fields[0].tag)
    else Find(fields[1..], key)
  }

  /** `c.Value[key] = tag`: the entry for key is replaced, or a new one added at the end. */
  function Put(fields: seq<Field>, key: seq<Byte>, tag: Tag): seq<Field>
  {
    if fields == [] then [Field(key, tag)]
    else if fields[0].key == key then [Field(key, tag)] + fields[1..]
    else [fields[0]] + Put(fields[1..], key, tag)
  }

  /** `Put` adds key to the keys, and a key not there yet goes at the end. */
  lemma {:induction false} PutKeys(fields: seq<Field>, key: seq<Byte>, tag: Tag)
    ensures KeySet(Put(fields, key, tag)) == KeySet(fields) + {key}
    ensures key !in KeySet(fields) ==> Put(fields, key, tag) == fields + [Field(key, tag)]
  {
    if fields != [] && fields[0].key != key {
      PutKeys(fields[1..], key, tag);
      var r := Put(fields, key, tag);
      assert r[1..] == Put(fields[1..], key, tag);
    }
  }

  /** After `Put`, the key finds the new value and every other key what it found before. */
  lemma {:induction false} PutFind(fields: seq<Field>, key: seq<Byte>, tag: Tag, other: seq<Byte>)
    ensures Find(Put(fields, key, tag), key) == Some(tag)
    ensures other != key ==> Find(Put(fields, key, tag), other) == Find(fields, other)
  {
    if fields != [] && fields[0].key != key {
      PutFind(fields[1..], key, tag, other);
      var r := Put(fields, key, tag);
      assert r[1..] == Put(fields[1..], key, tag);
    }
  }

  /** `Put` keeps the keys distinct. */
  lemma {:induction false} PutDistinct(fields: seq<Field>, key: seq<Byte>, tag: Tag)
    requires Distinct(fields)
    ensures Distinct(Put(fields, key, tag))
  {
    if fields != [] && fields[0].key != key {
      PutDistinct(fields[1..], key, tag);
      PutKeys(fields[1..], key, tag);
      var r := Put(fields, key, tag);
      assert r[1..] == Put(fields[1..], key, tag);
    } else if fields != [] {
      var r := Put(fields, key, tag);
      assert r[1..] == fields[1..];
    }
  }

  /** The index of the first '/' in a path, or its length when there is none. */
  function FirstSlash(path: seq<Byte>): (i: nat)
    ensures i <= |path|
    ensures forall j | 0 <= j < i :: path[j] != '/' as Byte
    ensures i < |path| ==> path[i] == '/' as Byte
  {
    if path == [] || path[0] == '/' as Byte then 0 else 1 + FirstSlash(path[1..])
  }

  /**
   * `Lookup(path)`: the component before the first '/' names an entry of a
   * compound; a missing entry gives nil; what follows the '/' is looked up in
   * that entry. Every tag other than a compound answers nil.
   */
  function Lookup(t: Tag, path: seq<Byte>): (r: Option<Tag>)
    decreases |path|
  {
    if !t.TagCompound? then None
    else
      var i := FirstSlash(path);
      match Find(t.fields, path[..i])
      case None => None
      case Some(u) => if i < |path| then Lookup(u, path[i + 1..]) else Some(u)
  }

  /** The tags a list can carry and write back as they are. */
  predicate WellFormed(t: Tag)
    decreases t
  {
    match t
    case TagByteArray(xs) => |xs| <= MaxInt32
    case TagIntArray(xs) => |xs| <= MaxInt32
    case TagString(b) => |b| < 0x1_0000
    case TagList(typ, items) => |items| <= MaxInt32 && ItemsWellFormed(typ, items)
    case TagCompound(_, fields) => FieldsWellFormed(fields)
    case _ => true
  }

  /** Every item has the list's element type and is well formed. */
  predicate ItemsWellFormed(typ: Int8, items: seq<Tag>)
    decreases items
  {
    items == [] || (TypeOf(items[0]) == typ && WellFormed(items[0]) && ItemsWellFormed(typ, items[1..]))
  }

  /**
   * Every key fits a `String`, no value is an `End` (its type byte would end
   * the compound), every value is well formed, and the keys are distinct.
   */
  predicate FieldWellFormed(f: Field)
    decreases f
  {
    |f.key| < 0x1_0000 && !f.tag.TagEnd? && WellFormed(f.tag)
  }

  predicate FieldsWellFormed(fields: seq<Field>)
    decreases fields
  {
    fields == [] ||
    (FieldWellFormed(fields[0]) && fields[0].key !in KeySet(fields[1..]) && FieldsWellFormed(fields[1..]))
  }

  /**
   * What reading gives back for a tag that was written: a compound read as
   * an entry is named after its key (`NewCompound(name)`), one read as a list
   * item has the empty name (`TagType.New`).
   */
  function ReadBack(t: Tag, name: seq<Byte>): (r: Tag)
    ensures TypeOf(r) == TypeOf(t)
    decreases t
  {
    match t
    case TagList(typ, items) => TagList(typ, ReadBackItems(items))
    case TagCompound(_, fields) => TagCompound(name, ReadBackFields(fields))
    case _ => t
  }

  function ReadBackItems(items: seq<Tag>): (r: seq<Tag>)
    ensures |r| == |items|
    decreases items
  {
    if items == [] then [] else [ReadBack(items[0], [])] + ReadBackItems(items[1..])
  }

  function ReadBackField(f: Field): (r: Field)
    ensures r.key == f.key
    decreases f
  {
    Field(f.key, ReadBack(f.tag, f.key))
  }

  function ReadBackFields(fields: seq<Field>): (r: seq<Field>)
    ensures |r| == |fields|
    decreases fields
  {
    if fields == [] then [] else [ReadBackField(fields[0])] + ReadBackFields(fields[1..])
  }
}
