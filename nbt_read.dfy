/**
 * Reading NBT from a byte stream: each tag's `ReadFrom`, the compound loop
 * that reads entries until `TagEnd`, and the top-level `Read`. These
 * functions are the specification the stream methods of `NbtStream` are
 * proved against.
 */
module NbtRead {
  import opened Integers
  import opened Opt
  import opened NbtTag

  datatype Failure =
    | Io
    | WrongType(tt: Int8)
    | InvalidTop
    | Panic(reason: string)

  /** A `ReadFrom` result: the value, the count `n` it reports and the stream left. */
  datatype Res<T> = Ok(value: T, n: int, rest: seq<Byte>) | Fail(e: Failure)

  /** `Read`'s result: the compound and the stream left, or the error. */
  datatype Parsed = Parsed(compound: Tag, rest: seq<Byte>) | Rejected(e: Failure)

  /**
   * `String.ReadFrom`: a `uint16` length, then that many bytes. As written,
   * the count is the length plus the bytes read (twice the length), or 0 for
   * the empty string; corrected, it is the 2 prefix bytes plus the length.
   */
  function ReadString(m: Mode, s: seq<Byte>): (r: Res<seq<Byte>>)
    ensures r.Ok? ==> |r.rest| <= |s| - 2 && |r.value| < 0x1_0000
    ensures m == Intended && r.Ok? ==> r.n == |s| - |r.rest|
  {
    if |s| < 2 then Fail(Io)
    else
      var length := ValueOf(s[..2]);
      Widths();
      if length == 0 then
        Ok([], if m == AsWritten then 0 else 2, s[2..])
      else if |s| < 2 + length then Fail(Io)
      else
        Ok(s[2..2 + length], if m == AsWritten then 2 * length else 2 + length, s[2 + length..])
  }

  /** The k-byte integer at the front of s, as a `ReadFrom` result. */
  function ReadFixed(k: nat, s: seq<Byte>): (r: Res<int>)
    requires k >= 1
    ensures r.Ok? <==> |s| >= k
    ensures r.Ok? ==> |r.rest| <= |s| && r.n == k == |s| - |r.rest| && Fits(r.value, k)
  {
    if |s| < k then Fail(Io) else Ok(Decode(s[..k]), k, s[k..])
  }

  /** `ReadFixed` is `Integers.ReadFrom` with the failure mapped to `Io`. */
  lemma ReadFixedIsReadFrom(k: nat, s: seq<Byte>)
    requires k >= 1
    ensures var d := Integers.ReadFrom(k, s);
      ReadFixed(k, s) == if d.Failed? then Fail(Io) else Ok(d.value, d.n, d.rest)
  {
  }

  /** A type byte read as `TagEnd` is a zero byte. */
  lemma EndTypeByte(s: seq<Byte>)
    requires |s| >= 1 && Decode(s[..1]) == EndType
    ensures s[0] == 0
  {
    EncodeDecode(s[..1]);
    Widths();
    assert Encode(0, 1) == [0];
  }

  /**
   * The element loop of `ByteArray`/`IntArray.ReadFrom`: count more k-byte
   * elements appended to acc, stopping at the first failed read.
   */
  function ReadElements(k: nat, count: nat, acc: seq<int>, n: int, s: seq<Byte>): (r: Res<seq<int>>)
    requires k >= 1
    ensures r.Ok? ==> |r.rest| <= |s| && r.n == n + |s| - |r.rest|
    ensures r.Ok? ==> |r.value| == |acc| + count && r.value[..|acc|] == acc
    ensures r.Ok? ==> forall i | |acc| <= i < |r.value| :: Fits(r.value[i], k)
    decreases count
  {
    if count == 0 then Ok(acc, n, s)
    else
      match ReadFixed(k, s)
      case Fail(e) => Fail(e)
      case Ok(v, nn, rest) =>
        var r := ReadElements(k, count - 1, acc + [v], n + nn, rest);
        if r.Ok? then
          assert (acc + [v])[..|acc|] == acc;
          assert r.value[..|acc|] == r.value[..|acc| + 1][..|acc|];
          r
        else r
  }

  /**
   * The shared body of the two array `ReadFrom`s: an `int32` length, a panic
   * in `make` when it is negative, then the elements.
   */
  function ReadArray(k: nat, s: seq<Byte>): (r: Res<seq<int>>)
    requires k >= 1
    ensures r.Ok? ==> |r.rest| <= |s| && r.n == |s| - |r.rest| && |r.value| <= MaxInt32
    ensures r.Ok? ==> forall i | 0 <= i < |r.value| :: Fits(r.value[i], k)
  {
    match ReadFixed(4, s)
    case Fail(e) => Fail(e)
    case Ok(length, n, rest) =>
      FitsWidths(length);
      if length < 0 then Fail(Panic("makeslice: len out of range"))
      else
        var r := ReadElements(k, length, [], n, rest);
        r
  }

  /** `ReadFrom` of `Byte`, `Short`, `Int` and `Long`: a signed integer of 1, 2, 4 or 8 bytes. */
  function ReadInteger(tt: Int8, s: seq<Byte>): (r: Res<Tag>)
    requires 1 <= tt <= 4
    ensures r.Ok? ==> |r.rest| <= |s| && TypeOf(r.value) == tt && r.n == |s| - |r.rest|
  {
    if tt == 1 then
      match ReadFixed(1, s)
      case Fail(e) => Fail(e)
      case Ok(v, n, rest) => FitsWidths(v); Ok(TagByte(v), n, rest)
    else if tt == 2 then
      match ReadFixed(2, s)
      case Fail(e) => Fail(e)
      case Ok(v, n, rest) => FitsWidths(v); Ok(TagShort(v), n, rest)
    else if tt == 3 then
      match ReadFixed(4, s)
      case Fail(e) => Fail(e)
      case Ok(v, n, rest) => FitsWidths(v); Ok(TagInt(v), n, rest)
    else
      match ReadFixed(8, s)
      case Fail(e) => Fail(e)
      case Ok(v, n, rest) => FitsWidths(v); Ok(TagLong(v), n, rest)
  }

  /** `ReadFrom` of `Float` and `Double`: the 4 or 8 bytes of the bit pattern. */
  function ReadReal(tt: Int8, s: seq<Byte>): (r: Res<Tag>)
    requires tt == 5 || tt == 6
    ensures r.Ok? ==> |r.rest| <= |s| && TypeOf(r.value) == tt && r.n == |s| - |r.rest|
  {
    Widths();
    if tt == 5 then
      if |s| < 4 then Fail(Io) else Ok(TagFloat(ValueOf(s[..4])), 4, s[4..])
    else
      if |s| < 8 then Fail(Io) else Ok(TagDouble(ValueOf(s[..8])), 8, s[8..])
  }

  /** `ByteArray.ReadFrom` and `IntArray.ReadFrom`: elements of 1 and of 4 bytes. */
  function ReadArrayTag(tt: Int8, s: seq<Byte>): (r: Res<Tag>)
    requires tt == 7 || tt == 11
    ensures r.Ok? ==> |r.rest| <= |s| && TypeOf(r.value) == tt && r.n == |s| - |r.rest|
  {
    Widths();
    if tt == 7 then
      match ReadArray(1, s)
      case Fail(e) => Fail(e)
      case Ok(xs, n, rest) => Ok(TagByteArray(xs), n, rest)
    else
      match ReadArray(4, s)
      case Fail(e) => Fail(e)
      case Ok(xs, n, rest) => Ok(TagIntArray(xs), n, rest)
  }

  /**
   * `ReadFrom` of the tags that hold no other tag: `End` reads (and drops)
   * one byte, the numbers their fixed width, the arrays and `String` their
   * length prefix and contents. A type `TagType.New` has no tag for is a nil
   * tag, whose `ReadFrom` panics.
   */
  function ReadLeaf(m: Mode, tt: Int8, s: seq<Byte>): (r: Res<Tag>)
    requires tt != 9 && tt != 10
    ensures r.Ok? ==> |r.rest| <= |s| && TypeOf(r.value) == tt
    ensures m == Intended && r.Ok? ==> r.n == |s| - |r.rest|
  {
    if tt == 0 then
      if |s| < 1 then Fail(Io) else Ok(TagEnd, 1, s[1..])
    else if 1 <= tt <= 4 then ReadInteger(tt, s)
    else if tt == 5 || tt == 6 then ReadReal(tt, s)
    else if tt == 7 || tt == 11 then ReadArrayTag(tt, s)
    else if tt == 8 then
      match ReadString(m, s)
      case Fail(e) => Fail(e)
      case Ok(b, n, rest) => Ok(TagString(b), n, rest)
    else Fail(Panic("invalid memory address or nil dereference"))
  }

  /**
   * A tag's `ReadFrom` for type tt, on a fresh tag of that type (a compound
   * being named `name`).
   */
  function ReadPayload(m: Mode, tt: Int8, name: seq<Byte>, s: seq<Byte>): (r: Res<Tag>)
    ensures r.Ok? ==> |r.rest| <= |s| && TypeOf(r.value) == tt
    ensures m == Intended && r.Ok? ==> r.n == |s| - |r.rest|
    decreases |s|, 2, 0
  {
    if tt == 9 then ReadList(m, s)
    else if tt == 10 then
      match ReadEntries(m, [], 0, s)
      case Fail(e) => Fail(e)
      case Ok(fields, n, rest) => Ok(TagCompound(name, fields), n, rest)
    else ReadLeaf(m, tt, s)
  }

  /**
   * `List.ReadFrom`: the element type, an `int32` length and, when the
   * length is positive, that many items of the element type. A length of
   * zero or less reads no item and leaves the list empty.
   */
  function ReadList(m: Mode, s: seq<Byte>): (r: Res<Tag>)
    ensures r.Ok? ==> |r.rest| <= |s| && r.value.TagList?
    ensures m == Intended && r.Ok? ==> r.n == |s| - |r.rest|
    decreases |s|, 1, 0
  {
    match ReadFixed(1, s)
    case Fail(e) => Fail(e)
    case Ok(typ, n1, r1) =>
      match ReadFixed(4, r1)
      case Fail(e) => Fail(e)
      case Ok(length, n2, r2) =>
        FitsWidths(typ);
        if length <= 0 then Ok(TagList(typ, []), n1 + n2, r2)
        else
          match ReadItems(m, typ, length, [], n1 + n2, r2)
          case Fail(e) => Fail(e)
          case Ok(items, n, rest) =>
            Ok(TagList(typ, items), n, rest)
  }

  /** The item loop of `List.ReadFrom`: k more items of type typ appended to acc. */
  function ReadItems(m: Mode, typ: Int8, k: nat, acc: seq<Tag>, n: int, s: seq<Byte>): (r: Res<seq<Tag>>)
    ensures r.Ok? ==> |r.rest| <= |s|
    ensures m == Intended && r.Ok? ==> r.n == n + |s| - |r.rest|
    decreases |s|, 3, k
  {
    if k == 0 then Ok(acc, n, s)
    else
      match ReadPayload(m, typ, [], s)
      case Fail(e) => Fail(e)
      case Ok(x, nx, rest) =>
        var r := ReadItems(m, typ, k - 1, acc + [x], n + nx, rest);
        r
  }

  /**
   * One pass of the loop in `Compound.ReadFrom`: a type byte, then (unless
   * it is `TagEnd`, which gives None) the key as a `String` and the payload.
   * As written, a stream that ends where a type byte should be leaves the
   * type at `TagEnd`, so the compound ends there without error and counts a
   * byte it did not read; corrected, that is an I/O error.
   */
  function ReadEntry(m: Mode, s: seq<Byte>): (r: Res<Option<Field>>)
    ensures r.Ok? ==> |r.rest| <= |s|
    ensures r.Ok? && r.value.Some? ==> |r.rest| < |s|
    ensures m == Intended && r.Ok? ==> r.n == |s| - |r.rest|
    ensures m == Intended && r.Ok? && r.value.None? ==> |s| >= 1 && s[0] == EndType && |r.rest| == |s| - 1
    decreases |s|, 0, 0
  {
    match ReadFixed(1, s)
    case Fail(e) => if m == AsWritten then Ok(None, 1, s) else Fail(e)
    case Ok(tt, nt, r1) =>
      FitsWidths(tt);
      if tt == EndType then
        EndTypeByte(s);
        Ok(None, nt, r1)
      else
        match ReadString(m, r1)
        case Fail(e) => Fail(e)
        case Ok(key, nk, r2) =>
          if !ValidType(tt) then Fail(WrongType(tt))
          else
            match ReadPayload(m, tt, key, r2)
            case Fail(e) => Fail(e)
            case Ok(v, nv, r3) =>
              Ok(Some(Field(key, v)), nt + nk + nv, r3)
  }

  /** The loop of `Compound.ReadFrom`: entries stored into acc until `TagEnd`. */
  function ReadEntries(m: Mode, acc: seq<Field>, n: int, s: seq<Byte>): (r: Res<seq<Field>>)
    ensures r.Ok? ==> |r.rest| <= |s|
    ensures m == Intended && r.Ok? ==> r.n == n + |s| - |r.rest| && |r.rest| < |s|
    decreases |s|, 1, 0
  {
    match ReadEntry(m, s)
    case Fail(e) => Fail(e)
    case Ok(None, ne, r1) => Ok(acc, n + ne, r1)
    case Ok(Some(f), ne, r1) =>
      var r := ReadEntries(m, Put(acc, f.key, f.tag), n + ne, r1);
      r
  }

  /**
   * `Read`: a type byte that must be `TagCompound` (`ErrInvalidTop`
   * otherwise), the compound's name, then its entries.
   */
  function Read(m: Mode, s: seq<Byte>): (r: Parsed)
    ensures r.Parsed? ==> r.compound.TagCompound? && |r.rest| <= |s|
  {
    match ReadFixed(1, s)
    case Fail(e) => Rejected(e)
    case Ok(tt, _, r1) =>
      if tt != CompoundType then Rejected(InvalidTop)
      else
        match ReadString(m, r1)
        case Fail(e) => Rejected(e)
        case Ok(name, _, r2) =>
          match ReadEntries(m, [], 0, r2)
          case Fail(e) => Rejected(e)
          case Ok(fields, _, r3) =>
            Parsed(TagCompound(name, fields), r3)
  }
}
