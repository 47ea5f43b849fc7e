/**
 * The slips in the NBT code, each shown on a concrete input: the `IntArray`
 * size, the counts a `String` reports on writing and on reading, and a
 * compound that ends without its `TagEnd` byte. Next to each, the corrected
 * behaviour that the rest of the model relies on.
 */
module NbtFindings {
  import opened Integers
  import opened Opt
  import opened NbtTag
  import opened NbtRead
  import opened NbtLaws

  /** As written, an `IntArray` of two elements claims 6 bytes, but its payload takes 12. */
  lemma IntArraySizeAsWritten()
    ensures Size(AsWritten, TagIntArray([1, 2])) == 6
    ensures |Payload(TagIntArray([1, 2]))| == 12
  {
    ElementsLength([1, 2], 4);
  }

  /** Corrected, every `IntArray` claims exactly its payload's length. */
  lemma IntArraySizeIntended(xs: seq<Int32>)
    ensures Size(Intended, TagIntArray(xs)) == |Payload(TagIntArray(xs))|
  {
    SizeIsWireLength(TagIntArray(xs));
  }

  /** As written, writing the one-byte `String` "A" reports 1 byte, but 3 are written. */
  lemma StringWriteCountAsWritten()
    ensures WriteCount(AsWritten, TagString([65])) == 1
    ensures |Payload(TagString([65]))| == 3
  {
  }

  /** As written, reading back "abc" reports 6 bytes, but 5 are taken from the stream. */
  lemma StringReadCountAsWritten()
    ensures var r := ReadString(AsWritten, [0, 3, 97, 98, 99]);
      r.Ok? && r.value == [97, 98, 99] && r.n == 6 && |r.rest| == 0
  {
    var s: seq<Byte> := [0, 3, 97, 98, 99];
    assert s[..2] == BytesOf(3, 2);
    ValueOfBytesOf(3, 2);
  }

  /** Corrected, the count a `String` reports on reading is the number of bytes it took. */
  lemma StringReadCountIntended(s: seq<Byte>)
    ensures var r := ReadString(Intended, s);
      r.Ok? ==> r.n == |s| - |r.rest|
  {
  }

  /**
   * As written, a compound whose stream ends right after its name reads as
   * an empty compound without error; corrected, the missing `TagEnd` byte
   * is an I/O error.
   */
  lemma TruncatedCompoundAsWritten()
    ensures Read(AsWritten, [10, 0, 0]) == Parsed(TagCompound([], []), [])
    ensures Read(Intended, [10, 0, 0]).Rejected?
  {
    var s: seq<Byte> := [10, 0, 0];
    assert s[..1] == BytesOf(10, 1);
    ValueOfBytesOf(10, 1);
    assert s[1..][..2] == BytesOf(0, 2);
    ValueOfBytesOf(0, 2);
    assert ReadEntries(AsWritten, [], 0, []) == Ok([], 1, []);
    assert ReadEntries(Intended, [], 0, []) == Fail(Io);
  }

  /** Corrected, the entry loop never ends on an empty stream: it needs the `TagEnd` byte. */
  lemma EndByteRequired(acc: seq<Field>, n: int)
    ensures ReadEntries(Intended, acc, n, []) == Fail(Io)
  {
  }
}
