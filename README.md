# Minecraft 1.5 protocol, configuration and NBT navigation, in Dafny

This project models the core of `nbtnav`, a small NBT (named binary tag)
browser written in Go, together with the parts of the minero server it
vendors. It covers four areas.

- **Wire codecs.** These cover:
  - the big-endian integers of the Minecraft 1.5 protocol;
  - booleans, UTF-16 strings, item slots, object data and entity metadata;
  - the sticky-error `MustReadWriter` that every packet's `ReadFrom` and `WriteTo` goes through;
  - all 79 packets of `proto/packet`, each with its `Id` byte.
- **NBT.** These cover:
  - the twelve tag types;
  - the bytes `WriteTo` puts on the wire, and the count and `Size` each tag reports;
  - the `ReadFrom` and `WriteTo` loops of lists, arrays and compounds;
  - `Read`/`Write` of a whole compound;
  - `Lookup` by slash-separated path.
- **Server helpers.** These cover:
  - the entity id allocator;
  - chat colour codes;
  - game modes, materials and UUIDs;
  - the login handler's section count and mask;
  - the player object and the player and ticker registries.
- **Configuration.** The line-oriented `key: value` format of `config`: its parser, `PrettyMap`, and the text `Save` writes.
- **nbtnav.** These cover:
  - path resolution (`path.Clean`);
  - `pathToTag`;
  - `prettyByteArray`'s hex digits;
  - `typeFromString`;
  - `setTagValue`.

Code that builds values is modelled as datatypes and functions. Code that
updates state in place is modelled as classes whose methods carry
`modifies` clauses:
- the `ReadWriter`;
- the id generator;
- `Config`;
- the player;
- the registries.

The source's loops are methods with loop invariants. Each is proved equal to
a specification function, and the properties are proved as lemmas about that
function.

The main results are these:
- every packet survives `WriteTo` then `ReadFrom`;
- strings, slots, metadata and NBT compounds read back as written;
- saving and re-parsing a flat configuration gives the same map;
- `resolve` keeps the navigator's current path absolute and clean;
- the id allocator never hands out an id that is live or still queued, until its counter wraps.

Where the code contradicts what it evidently means, the model keeps both
versions and proves the difference (see "## Findings").

Go semantics are written out where they matter:
- truncating `/`;
- `uint16` and `int8` wrap-around;
- index-out-of-range and nil-dereference panics, which become an error value `Panic`;
- map iteration order, which is a parameter or an existentially chosen enumeration.

## Model

| member | source | states |
|---|---|---|
| Integers.ValueOfBytesOf | vendor/github.com/minero/minero/types/integer.go:10-80 | Decoding the k big-endian bytes of an unsigned value gives the value back. |
| Integers.BytesOfValueOf | vendor/github.com/minero/minero/types/integer.go:10-80 | Spelling a decoded byte string in the same width gives the string back. |
| Integers.BytesOfHead | vendor/github.com/minero/minero/types/integer.go:18-24 | The first byte written is the most significant one (big-endian). |
| Integers.Wrap | vendor/github.com/minero/minero/types/integer.go:18-80 | Go's conversion to a k-byte signed type: the result fits k bytes and is congruent to the input modulo 256^k. |
| Integers.DecodeEncode | vendor/github.com/minero/minero/types/integer.go:10-80 | Decoding the bytes that store a value of the width gives the value back. |
| Integers.EncodeDecode | vendor/github.com/minero/minero/types/integer.go:10-80 | Encoding a decoded byte string gives the bytes back. |
| Integers.ReadFrom | vendor/github.com/minero/minero/types/integer.go:10-72 | `ReadFrom` of Int8/16/32/64: with k bytes available, consumes exactly k and reports k; shorter input is an error reporting 0. |
| Integers.WriteTo | vendor/github.com/minero/minero/types/integer.go:18-80 | `WriteTo` of each width: exactly k bytes written and k reported. |
| Integers.WriteToBigEndian | vendor/github.com/minero/minero/types/integer.go:18-80 | The first byte `WriteTo` writes is the most significant one. |
| Integers.ReadWriteRoundTrip | vendor/github.com/minero/minero/types/integer.go:10-80 | Reading back what `WriteTo` wrote gives the value, count k, no error, and leaves the rest of the stream. |
| McBool.ReadFrom | vendor/github.com/minero/minero-go/types/minecraft/bool.go:10-22 | One byte is consumed and reported; only 0x01 reads as true; an empty stream is an error. |
| McBool.WriteTo | vendor/github.com/minero/minero-go/types/minecraft/bool.go:24-36 | Writes 0x01 for true and 0x00 for false and reports one byte. |
| McBool.ReadWriteRoundTrip | vendor/github.com/minero/minero-go/types/minecraft/bool.go:10-36 | Reading back what was written gives the boolean, one byte, and the rest of the stream. |
| GameMode.SetThenIs | vendor/github.com/minero/minero/constants/game/gamemode/gamemode.go:11-21 | After `SetHardcore(m, true)` the mode is hardcore; after `SetHardcore(m, false)` it is not. |
| GameMode.SetKeepsOtherBits | vendor/github.com/minero/minero/constants/game/gamemode/gamemode.go:16-21 | Setting the flag changes bit 3 only. |
| GameMode.ClearKeepsMode | vendor/github.com/minero/minero/constants/game/gamemode/gamemode.go:16-21 | Clearing the flag keeps just the two mode bits, as the source's `m & 0x3` does. |
| GameMode.SetIdempotent | vendor/github.com/minero/minero/constants/game/gamemode/gamemode.go:16-21 | Setting or clearing twice is the same as once. |
| GameMode.ModeRoundTrip | vendor/github.com/minero/minero/constants/game/gamemode/gamemode.go:11-21 | A plain mode (0-3) is not hardcore, and setting then clearing the flag gives it back. |
| Material.Classes | vendor/github.com/minero/minero-go/material/material.go:73-91 | `IsBlock`, `IsItem` and `IsDisc` by id range: discs are items, no block is an item. |
| Material.FromId | vendor/github.com/minero/minero-go/material/material.go:34-44 | `FromId`: `Air` for an id below the first block or outside every range, the id itself otherwise (characterised by `FromIdExact`). |
| Material.FromIdExact | vendor/github.com/minero/minero-go/material/material.go:34-44 | `FromId` returns the id itself exactly when it names a block, item or disc, and `Air` otherwise. |
| Material.FromIdRanges | vendor/github.com/minero/minero-go/material/material.go:34-44 | Over each range `FromId` stays in the class of that range. |
| Material.FromIdExamples | vendor/github.com/minero/minero-go/material/material.go:34-44 | Concrete ids at the range edges map as `FromId` maps them. |
| Material.NonBlocksHaveNoProperties | vendor/github.com/minero/minero-go/material/material.go:105-215 | The block predicates (solid, transparent, flammable, burnable, occluding, gravity) are false on every non-block. |
| Material.BurnableIsFlammable | vendor/github.com/minero/minero-go/material/material.go:154-182 | Every material `IsBurnable` accepts is also `IsFlammable`. |
| Material.OccludingAndFallingAreSolid | vendor/github.com/minero/minero-go/material/material.go:105-215 | `IsOccluding` and `HasGravity` each imply `IsSolid`. |
| Material.AirAndFalling | vendor/github.com/minero/minero-go/material/material.go:105-215 | Air is transparent and not solid; sand, gravel and anvils have gravity. |
| ObjectDatas.ReadFrom | vendor/github.com/minero/minero/types/minecraft/objectdata.go:23-34 | `ObjectData.ReadFrom`: the int32 data, then three int16 speeds only when the data is non-zero; the count is the bytes consumed. |
| ObjectDatas.WriteTo | vendor/github.com/minero/minero/types/minecraft/objectdata.go:36-47 | `ObjectData.WriteTo`: the bytes written are the data and, when non-zero, the speeds; the count is their number. |
| ObjectDatas.ReadWriteRoundTrip | vendor/github.com/minero/minero/types/minecraft/objectdata.go:23-47 | Reading back what was written gives the value (speeds only kept when data is non-zero) and consumes exactly its bytes. |
| ObjectDatas.ReadObjectDataFrom | vendor/github.com/minero/minero/types/minecraft/objectdata.go:23-34 | The stream method computes exactly `ReadFrom` and advances the reader by what it consumed. |
| ObjectDatas.WriteObjectDataTo | vendor/github.com/minero/minero/types/minecraft/objectdata.go:36-47 | The stream method appends exactly the bytes of `WriteTo` and reports its count. |
| Uuid.Hex | vendor/github.com/minero/minero/util/uuid/uuid.go:23-30 | `%x` of bytes: two lower-case hexadecimal digits per byte. |
| Uuid.UnhexHex | vendor/github.com/minero/minero/util/uuid/uuid.go:23-30 | The digits read back as the bytes they were written from. |
| Uuid.HexUnhex | vendor/github.com/minero/minero/util/uuid/uuid.go:23-30 | Any text that reads as bytes is the hex text of those bytes. |
| Uuid.Format | vendor/github.com/minero/minero/util/uuid/uuid.go:23-30 | `String`: the 16 bytes as two lower-case hexadecimal digits each, in groups of 4, 2, 2, 2 and 6 bytes joined by dashes (its laws: `FormatShape`, `ParseFormat`). |
| Uuid.Parse | vendor/github.com/minero/minero/util/uuid/uuid.go:23-30 | The inverse of `String`: 36 runes, dashes at 8, 13, 18 and 23, hexadecimal digits elsewhere; anything else is nothing (`ParseFormat`, `FormatParse`). |
| Uuid.FormatShape | vendor/github.com/minero/minero/util/uuid/uuid.go:23-30 | `String`: 36 characters, dashes at 8, 13, 18 and 23, lower-case hexadecimal digits everywhere else. |
| Uuid.ParseFormat | vendor/github.com/minero/minero/util/uuid/uuid.go:23-30 | The text `String` writes parses back to the same 16 bytes. |
| Uuid.FormatParse | vendor/github.com/minero/minero/util/uuid/uuid.go:23-30 | Any text the parser accepts is exactly the `String` of what it parses to. |
| Uuid.FormatExample | vendor/github.com/minero/minero/util/uuid/uuid.go:23-30 | The package test vector formats as the test expects. |
| Uuid.UUID4 | vendor/github.com/minero/minero/util/uuid/uuid.go:33-54 | `UUID4`: the 16 random draws, then version bits 0100 in byte 6 and variant bits 10 in byte 8; every other bit is the draw's. |
| McString.EncodeUtf16 | vendor/github.com/minero/minero-go/types/minecraft/string.go:56-58 | `writeString`: the UTF-16 units of the string, a surrogate pair for each rune above U+FFFF. |
| McString.DecodeUtf16 | vendor/github.com/minero/minero-go/types/minecraft/string.go:61-63 | `readString`: UTF-16 decoding, an unpaired surrogate becoming U+FFFD. |
| McString.DecodeEncodeUtf16 | vendor/github.com/minero/minero-go/types/minecraft/string.go:56-63 | Decoding the encoding gives the string back. |
| McString.BytesUnitsOfUnitBytes | vendor/github.com/minero/minero-go/types/minecraft/string.go:11-49 | The big-endian two-byte spelling of the units reads back as the units. |
| McString.ReadFrom | vendor/github.com/minero/minero-go/types/minecraft/string.go:11-31 | `ReadFrom`: a uint16 unit count, then 2 bytes per unit; a short prefix is an error reporting 0; a short body is an error. |
| McString.WriteTo | vendor/github.com/minero/minero-go/types/minecraft/string.go:33-49 | `WriteTo` as written: the prefix is the unit count cut to uint16, and the reported count `2 + length*2` is computed in uint16. |
| McString.WriteToCountWraps | vendor/github.com/minero/minero-go/types/minecraft/string.go:33-49 | From 32767 units on, the count `WriteTo` reports differs from the number of bytes it wrote. |
| McString.WriteToCounted | vendor/github.com/minero/minero-go/types/minecraft/string.go:33-49 | `WriteTo` with the count in int64: the same bytes, and the count is their number. |
| McString.WriteToCountAgrees | vendor/github.com/minero/minero-go/types/minecraft/string.go:33-49 | Below 32767 units the as-written and the corrected counts agree. |
| McString.ReadWriteRoundTrip | vendor/github.com/minero/minero-go/types/minecraft/string.go:11-49 | Any string of at most 65535 units reads back unchanged, leaving the rest of the stream. |
| Ids.Take | vendor/github.com/minero/minero/id/id.go:20-30 | `Get`: the oldest released id, else the counter's next id, reset to 0 after `MaxInt32` (its laws: `TakeInRange`, `TakeUnique`, `QueuedIdsFirst`). |
| Ids.Release | vendor/github.com/minero/minero/id/id.go:33-35 | `Rel`: the id joins the back of the queue; a full queue is the panic (its laws: `ReleaseSound`, `ReleaseIsFifo`). |
| Ids.TakeInRange | vendor/github.com/minero/minero/id/id.go:20-30 | Every id `Get` hands out lies in [0, MaxInt32] while only such ids are released. |
| Ids.ReleaseSound | vendor/github.com/minero/minero/id/id.go:33-35 | Releasing an in-range id keeps the generator state sound, and fails exactly on a full queue. |
| Ids.ReleaseThenTake | vendor/github.com/minero/minero/id/id.go:20-35 | With nothing queued, a released id is the next one handed out and the counter is untouched. |
| Ids.ReleaseIsFifo | vendor/github.com/minero/minero/id/id.go:62-85 | The queue is FIFO: the oldest released id comes out first, a new one waits at the back. |
| Ids.CounterIdsIncrease | vendor/github.com/minero/minero/id/id.go:20-30 | With nothing queued and room below MaxInt32, n calls give max+1 ... max+n, strictly increasing. |
| Ids.QueuedIdsFirst | vendor/github.com/minero/minero/id/id.go:20-30 | All queued ids come out, oldest first, before the counter is used again. |
| Ids.TakeUnique | vendor/github.com/minero/minero/id/id.go:20-30 | `Get` returns an id that is neither live nor still queued, while the counter is below MaxInt32 and queued ids are at most the counter. |
| Ids.ReleaseUnique | vendor/github.com/minero/minero/id/id.go:33-35 | `Rel` of a live id with room in the queue keeps all ids distinct; the id is no longer live. |
| Ids.CounterResetReissues | vendor/github.com/minero/minero/id/id.go:24-28 | At MaxInt32 the counter restarts at 0, so an id still live (id 1 with nothing queued) is handed out again. |
| Ids.Generator.constructor | vendor/github.com/minero/minero/id/id.go:12-17 | The zero value: counter 0, empty queue. |
| Ids.Generator.Push | vendor/github.com/minero/minero/id/id.go:62-71 | `push`: appends at the back and grows the length, or sets `panicked` on a full queue. |
| Ids.Generator.Pop | vendor/github.com/minero/minero/id/id.go:75-85 | `pop`: removes and returns the oldest id, or sets `panicked` on an empty queue. |
| Ids.Generator.Get | vendor/github.com/minero/minero/id/id.go:20-30 | `Get`: the oldest queued id if any, else the next counter value (0 after MaxInt32); the new state is `Take` of the old. |
| Ids.Generator.Rel | vendor/github.com/minero/minero/id/id.go:33-35 | `Rel`: the id joins the queue, or `panicked` when it is full; the new state is `Release` of the old. |
| Ids.ReleaseAsWritten | vendor/github.com/minero/minero/id/id.go:33-71 | `Rel` as written: `push` has a value receiver, so the state is unchanged. |
| Ids.ReleasedIdIsLost | vendor/github.com/minero/minero/id/id.go:33-71 | As written, a released id is never handed out again; the counter's next value comes instead. |
| Ids.PopAsWritten | vendor/github.com/minero/minero/id/id.go:75-85 | `pop` as written: the length field is checked but never decremented. |
| Ids.PopAsWrittenOverruns | vendor/github.com/minero/minero/id/id.go:75-85 | One push then two pops reach the index-out-of-range panic instead of the empty-queue panic. |
| Chat.ColorXorFormat | vendor/github.com/minero/minero-go/chat/chat.go:41-63 | No string is both `IsColor` and `IsFormat`. |
| Chat.CodeTables | vendor/github.com/minero/minero-go/chat/chat.go:7-63 | Every § + digit/a-f is a colour and not a format; every § + k,l,m,n,o,r is a format and not a colour. |
| Chat.Strip | vendor/github.com/minero/minero-go/chat/chat.go:85-88 | `Strip`: every colour and format sequence removed in one left-to-right pass (its laws: `StripNoLonger`, `StripChangesIffCode`). |
| Chat.Translate | vendor/github.com/minero/minero-go/chat/chat.go:67-70 | `Translate` with a one-rune pattern: each pattern rune before a code becomes the section sign (its laws: `TranslateSectionIdentity`, `StripAfterTranslate`). |
| Chat.StripNoLonger | vendor/github.com/minero/minero-go/chat/chat.go:73-88 | Each strip function never lengthens the text. |
| Chat.RewriteNoCode | vendor/github.com/minero/minero-go/chat/chat.go:73-88 | Text without a matching control sequence passes through unchanged. |
| Chat.StripShortens | vendor/github.com/minero/minero-go/chat/chat.go:73-88 | Text holding a matching control sequence comes out strictly shorter. |
| Chat.StripChangesIffCode | vendor/github.com/minero/minero-go/chat/chat.go:73-88 | Stripping changes the text exactly when it holds a control sequence of the kind stripped. |
| Chat.StripColorCanLeaveCode | vendor/github.com/minero/minero-go/chat/chat.go:73-76 | One pass is not idempotent: stripping section, section, zero, zero leaves the black code (section, zero). |
| Chat.RewritePlain | vendor/github.com/minero/minero-go/chat/chat.go:67-88 | A piece that is not a control sequence is copied as is, whatever follows. |
| Chat.RewriteCode | vendor/github.com/minero/minero-go/chat/chat.go:67-88 | A control sequence at the front is replaced, whatever follows. |
| Chat.StripExample | vendor/github.com/minero/minero-go/chat/chat.go:85-88 | The package test's strip example gives the expected text. |
| Chat.TranslateSectionIdentity | vendor/github.com/minero/minero-go/chat/chat.go:67-70 | Translating with `§` as the control character changes nothing. |
| Chat.StripAfterTranslate | vendor/github.com/minero/minero-go/chat/chat.go:67-88 | For text without §, translating then stripping every sequence equals deleting every alternate-char sequence. |
| Chat.TranslateExample | vendor/github.com/minero/minero-go/chat/chat.go:67-70 | The package test's translate example gives the expected text. |
| Must.MustHook | vendor/github.com/minero/minero/util/must/readwriter.go:21-30 | `Must` as its comment describes it: with an error already recorded nothing changes; otherwise n is added and err recorded. |
| Must.MustAsWritten | vendor/github.com/minero/minero/util/must/readwriter.go:21-30 | `Must` as written: while no error is recorded, nothing changes (the nil test is inverted). |
| Must.MustAsWrittenDropsFirstError | vendor/github.com/minero/minero/util/must/readwriter.go:21-30 | On a fresh ReadWriter, the as-written hook drops a reported error and its count; the intended hook records both. |
| Must.MustAsWrittenClearsError | vendor/github.com/minero/minero/util/must/readwriter.go:21-30 | With an error recorded, the as-written hook called with a nil error clears it; the intended hook keeps it. |
| Must.CheckHook | vendor/github.com/minero/minero-go/util/must/must.go:9-15 | The count is untouched and the first error is kept. |
| Must.Raise | vendor/github.com/minero/minero/util/must/readwriter.go:42-249 | A runtime panic: the count is kept and the error becomes a panic (an earlier panic is kept). |
| Must.ReadInt | vendor/github.com/minero/minero/util/must/readwriter.go:42-104 | `ReadInt8`-`ReadInt64`: after an error, 0 and nothing read; a short stream records an I/O error, drains it and returns 0; otherwise the k-byte big-endian value, k counted, the rest left. |
| Must.ReadI8 | vendor/github.com/minero/minero/util/must/readwriter.go:42-56 | `ReadInt8`: `ReadInt` at width 1, the stream only advancing. |
| Must.ReadI16 | vendor/github.com/minero/minero/util/must/readwriter.go:58-72 | `ReadInt16`: `ReadInt` at width 2, the stream only advancing. |
| Must.ReadI32 | vendor/github.com/minero/minero/util/must/readwriter.go:74-88 | `ReadInt32`: `ReadInt` at width 4, the stream only advancing. |
| Must.ReadI64 | vendor/github.com/minero/minero/util/must/readwriter.go:90-104 | `ReadInt64`: `ReadInt` at width 8, the stream only advancing. |
| Must.ReadBits | vendor/github.com/minero/minero/util/must/readwriter.go:106-136 | `ReadFloat32`/`64` on the raw bit pattern: the same three cases as `ReadInt`. |
| Must.ReadF32 | vendor/github.com/minero/minero/util/must/readwriter.go:106-120 | `ReadFloat32`: `ReadBits` at width 4. |
| Must.ReadF64 | vendor/github.com/minero/minero/util/must/readwriter.go:122-136 | `ReadFloat64`: `ReadBits` at width 8. |
| Must.ReadByteArray | vendor/github.com/minero/minero/util/must/readwriter.go:138-152 | `ReadByteArray`: after an error or for a length <= 0, no bytes and nothing read; a shorter stream records an I/O error; otherwise exactly `length` bytes. |
| Must.WriteBytes | vendor/github.com/minero/minero/util/must/readwriter.go:154-249 | Every `Write*`: dropped after an error; a failed destination records an I/O error and takes nothing; otherwise the bytes are appended and counted. |
| Must.WriteI8 | vendor/github.com/minero/minero/util/must/readwriter.go:154-166 | `WriteInt8`: the one-byte two's-complement spelling, through `WriteBytes`. |
| Must.WriteI16 | vendor/github.com/minero/minero/util/must/readwriter.go:168-180 | `WriteInt16`: the big-endian two-byte spelling, through `WriteBytes`. |
| Must.WriteI32 | vendor/github.com/minero/minero/util/must/readwriter.go:182-194 | `WriteInt32`: the big-endian four-byte spelling, through `WriteBytes`. |
| Must.WriteI64 | vendor/github.com/minero/minero/util/must/readwriter.go:196-208 | `WriteInt64`: the big-endian eight-byte spelling, through `WriteBytes`. |
| Must.WriteF32 | vendor/github.com/minero/minero/util/must/readwriter.go:210-222 | `WriteFloat32`: skipped after an error; a failed destination records the error; otherwise the 4 big-endian bytes of the bits are appended after what was there and counted. |
| Must.FloatRoundTrip32 | vendor/github.com/minero/minero/util/must/readwriter.go:210-222 | `ReadFloat32` of the bytes `WriteFloat32` appended gets the bits back, counts 4 and leaves what follows. |
| Must.WriteF64 | vendor/github.com/minero/minero/util/must/readwriter.go:224-236 | `WriteFloat64`: skipped after an error; a failed destination records the error; otherwise the 8 big-endian bytes of the bits are appended after what was there and counted. |
| Must.FloatRoundTrip64 | vendor/github.com/minero/minero/util/must/readwriter.go:224-236 | `ReadFloat64` of the bytes `WriteFloat64` appended gets the bits back, counts 8 and leaves what follows. |
| Must.ReadIntWriteInt | vendor/github.com/minero/minero/util/must/readwriter.go:42-208 | A fitting value written at width k reads back as itself with k counted and the tail left, whatever the tail. |
| Must.WriteBytesTwice | vendor/github.com/minero/minero/util/must/readwriter.go:154-249 | Two writes to a healthy destination are one write of the concatenation. |
| Must.WriteAfterError | vendor/github.com/minero/minero/util/must/readwriter.go:154-249 | After the first error no write changes anything. |
| Must.Reader.constructor | vendor/github.com/minero/minero/util/must/readwriter.go:42-56 | A stream holding the given bytes. |
| Must.Writer.constructor | vendor/github.com/minero/minero/util/must/readwriter.go:154-166 | An empty destination, failing or not. |
| Must.ReadWriter.constructor | vendor/github.com/minero/minero/util/must/readwriter.go:13-17 | The zero value: count 0, no error. |
| Must.ReadWriter.Must | vendor/github.com/minero/minero/util/must/readwriter.go:21-30 | The new state is `MustHook` of the old. |
| Must.ReadWriter.Check | vendor/github.com/minero/minero-go/util/must/must.go:9-15 | The new state is `CheckHook` of the old. |
| Must.ReadWriter.Crash | vendor/github.com/minero/minero/util/must/readwriter.go:42-249 | The new state is `Raise` of the old. |
| Must.ReadWriter.Result | vendor/github.com/minero/minero/util/must/readwriter.go:32-34 | `Result`: the count and the first error, unchanged. |
| Must.ReadWriter.Reset | vendor/github.com/minero/minero/util/must/readwriter.go:37-40 | `Reset`: count 0, no error. |
| Must.ReadWriter.ReadFixed | vendor/github.com/minero/minero/util/must/readwriter.go:42-104 | The value read and the new state and stream are those of `ReadInt`. |
| Must.ReadWriter.ReadInt8 | vendor/github.com/minero/minero/util/must/readwriter.go:42-56 | Value, state and stream as `ReadI8` gives them. |
| Must.ReadWriter.ReadInt16 | vendor/github.com/minero/minero/util/must/readwriter.go:58-72 | Value, state and stream as `ReadI16` gives them. |
| Must.ReadWriter.ReadInt32 | vendor/github.com/minero/minero/util/must/readwriter.go:74-88 | Value, state and stream as `ReadI32` gives them. |
| Must.ReadWriter.ReadInt64 | vendor/github.com/minero/minero/util/must/readwriter.go:90-104 | Value, state and stream as `ReadI64` gives them. |
| Must.ReadWriter.ReadRaw | vendor/github.com/minero/minero/util/must/readwriter.go:106-136 | Value, state and stream as `ReadBits` gives them. |
| Must.ReadWriter.ReadFloat32 | vendor/github.com/minero/minero/util/must/readwriter.go:106-120 | Value, state and stream as `ReadF32` gives them. |
| Must.ReadWriter.ReadFloat64 | vendor/github.com/minero/minero/util/must/readwriter.go:122-136 | Value, state and stream as `ReadF64` gives them. |
| Must.ReadWriter.ReadBytes | vendor/github.com/minero/minero/util/must/readwriter.go:138-152 | Value, state and stream as `ReadByteArray` gives them. |
| Must.ReadWriter.Write | vendor/github.com/minero/minero/util/must/readwriter.go:154-249 | State and destination as `WriteBytes` gives them. |
| Must.ReadWriter.WriteInt8 | vendor/github.com/minero/minero/util/must/readwriter.go:154-166 | State and destination as `WriteI8` gives them. |
| Must.ReadWriter.WriteInt16 | vendor/github.com/minero/minero/util/must/readwriter.go:168-180 | State and destination as `WriteI16` gives them. |
| Must.ReadWriter.WriteInt32 | vendor/github.com/minero/minero/util/must/readwriter.go:182-194 | State and destination as `WriteI32` gives them. |
| Must.ReadWriter.WriteInt64 | vendor/github.com/minero/minero/util/must/readwriter.go:196-208 | State and destination as `WriteI64` gives them. |
| Must.ReadWriter.WriteFloat32 | vendor/github.com/minero/minero/util/must/readwriter.go:210-222 | State and destination as `WriteF32` gives them. |
| Must.ReadWriter.WriteFloat64 | vendor/github.com/minero/minero/util/must/readwriter.go:224-236 | State and destination as `WriteF64` gives them. |
| Must.ReadWriter.WriteByteArray | vendor/github.com/minero/minero/util/must/readwriter.go:238-249 | State and destination as `WriteBytes` of the raw bytes gives them. |
| PacketRW.Wrapped | vendor/github.com/minero/minero-go/proto/packet/readwriter.go:17-162 | A failed codec's error: a panic stays a panic, an I/O error is renamed after the operation. |
| PacketRW.ReadStr | vendor/github.com/minero/minero-go/proto/packet/readwriter.go:17-31 | `ReadString`: after an error, "" and nothing read; on failure the value is "" and the error is renamed; the stream only advances. |
| PacketRW.ReadBoolean | vendor/github.com/minero/minero-go/proto/packet/readwriter.go:47-61 | `ReadBool`: after an error, false and nothing read; otherwise one byte, true only for 0x01. |
| PacketRW.ReadSlotField | vendor/github.com/minero/minero-go/proto/packet/readwriter.go:77-91 | `ReadSlot`: a slot exactly when no error is recorded afterwards; a failure is renamed and counts nothing. |
| PacketRW.ReadObjectDataField | vendor/github.com/minero/minero-go/proto/packet/readwriter.go:106-120 | `ReadObjectData`: a value exactly when no error is recorded afterwards; a failure is renamed and counts nothing. |
| PacketRW.ReadMetadataField | vendor/github.com/minero/minero-go/proto/packet/readwriter.go:135-149 | `ReadMetadata`: after any error the map is empty; the stream only advances. |
| PacketRW.StrBytes | vendor/github.com/minero/minero-go/proto/packet/readwriter.go:33-45 | A string takes 2 + 2 bytes per UTF-16 unit. |
| PacketRW.WriteStr | vendor/github.com/minero/minero-go/proto/packet/readwriter.go:33-45 | `WriteString` writes the string's bytes through `WriteBytes`. |
| PacketRW.WriteBoolean | vendor/github.com/minero/minero-go/proto/packet/readwriter.go:63-75 | `WriteBool`: one byte, 0x01 or 0x00. |
| PacketRW.WriteSlotField | vendor/github.com/minero/minero-go/proto/packet/readwriter.go:93-104 | `WriteSlot`: a slot's bytes; a nil slot panics unless an error is already recorded. |
| PacketRW.WriteObjectDataField | vendor/github.com/minero/minero-go/proto/packet/readwriter.go:122-133 | `WriteObjectData`: the value's bytes; a nil value panics unless an error is already recorded. |
| PacketRW.WriteMetadataField | vendor/github.com/minero/minero-go/proto/packet/readwriter.go:151-162 | `WriteMetadata`: the map's bytes in the enumeration order. |
| PacketRW.StringRoundTrip | vendor/github.com/minero/minero-go/proto/packet/readwriter.go:17-45 | A string of at most 65535 units written and read back is itself, its byte length counted, the tail left. |
| PacketRW.BoolRoundTrip | vendor/github.com/minero/minero-go/proto/packet/readwriter.go:47-75 | A boolean written and read back is itself, one byte counted. |
| PacketRW.SlotRoundTrip | vendor/github.com/minero/minero-go/proto/packet/readwriter.go:77-104 | A slot written and read back is itself (an empty slot comes back as `NewSlot`), its bytes counted. |
| PacketRW.ObjectDataRoundTrip | vendor/github.com/minero/minero-go/proto/packet/readwriter.go:106-133 | Object data written and read back is itself (no speeds when the data is zero), its bytes counted. |
| PacketRW.MetadataRoundTrip | vendor/github.com/minero/minero-go/proto/packet/readwriter.go:135-162 | A metadata map written in any enumeration order and read back is the same map. |
| PacketRW.ReadString | vendor/github.com/minero/minero-go/proto/packet/readwriter.go:17-31 | Value, state and stream as `ReadStr` gives them. |
| PacketRW.ReadBool | vendor/github.com/minero/minero-go/proto/packet/readwriter.go:47-61 | Value, state and stream as `ReadBoolean` gives them. |
| PacketRW.ReadSlot | vendor/github.com/minero/minero-go/proto/packet/readwriter.go:77-91 | Value, state and stream as `ReadSlotField` gives them. |
| PacketRW.ReadObjectData | vendor/github.com/minero/minero-go/proto/packet/readwriter.go:106-120 | Value, state and stream as `ReadObjectDataField` gives them. |
| PacketRW.ReadMetadata | vendor/github.com/minero/minero-go/proto/packet/readwriter.go:135-149 | Value, state and stream as `ReadMetadataField` gives them. |
| PacketRW.WriteString | vendor/github.com/minero/minero-go/proto/packet/readwriter.go:33-45 | State and destination as `WriteStr` gives them. |
| PacketRW.WriteBool | vendor/github.com/minero/minero-go/proto/packet/readwriter.go:63-75 | State and destination as `WriteBoolean` gives them. |
| PacketRW.WriteSlot | vendor/github.com/minero/minero-go/proto/packet/readwriter.go:93-104 | State and destination as `WriteSlotField` gives them. |
| PacketRW.WriteObjectData | vendor/github.com/minero/minero-go/proto/packet/readwriter.go:122-133 | State and destination as `WriteObjectDataField` gives them. |
| PacketRW.WriteMetadata | vendor/github.com/minero/minero-go/proto/packet/readwriter.go:151-162 | The map is enumerated in some order (every key once); state and destination as `WriteMetadataField` in that order. |
| Slots.NewSlot | vendor/github.com/minero/minero-go/types/minecraft/slot.go:21-28 | `NewSlot`: block id -1, amount 1, damage 0, no enchantments. |
| Slots.ReadFrom | vendor/github.com/minero/minero-go/types/minecraft/slot.go:30-63 | `Slot.ReadFrom` with an empty gzip payload read as an I/O error: block id -1 ends after 2 bytes; length -1 ends after 7 bytes; otherwise the payload is read. |
| Slots.ReadFromAsWritten | vendor/github.com/minero/minero-go/types/minecraft/slot.go:30-63 | `Slot.ReadFrom` as written: a stream ending before the payload panics in `io.Copy` on the nil gzip reader. |
| Slots.Bytes | vendor/github.com/minero/minero-go/types/minecraft/slot.go:65-92 | The bytes of an empty slot are its block id alone; of any other slot, 5 header bytes then the enchantments. |
| Slots.EnchantmentBytes | vendor/github.com/minero/minero-go/types/minecraft/slot.go:78-90 | The length prefix (-1 for none) then the payload. |
| Slots.WriteTo | vendor/github.com/minero/minero-go/types/minecraft/slot.go:65-92 | `Slot.WriteTo`: the bytes of the slot through `Must`, with their number counted. |
| Slots.HeaderWrites | vendor/github.com/minero/minero-go/types/minecraft/slot.go:65-77 | A non-empty slot's header is block id, amount and damage: 5 bytes. |
| Slots.WriteEnchantments | vendor/github.com/minero/minero-go/types/minecraft/slot.go:78-90 | The enchantment part is the length prefix and the payload if there is one. |
| Slots.ReadWriteRoundTrip | vendor/github.com/minero/minero-go/types/minecraft/slot.go:30-92 | Reading back what `WriteTo` wrote gives the slot (an empty slot as `NewSlot`) and consumes exactly its bytes. |
| Slots.HeaderRoundTrip | vendor/github.com/minero/minero-go/types/minecraft/slot.go:30-50 | The header of a non-empty slot reads back and leaves the enchantments. |
| Slots.EnchantmentsRoundTrip | vendor/github.com/minero/minero-go/types/minecraft/slot.go:50-62 | The enchantment length and payload read back. |
| Slots.TruncatedSlotPanics | vendor/github.com/minero/minero-go/types/minecraft/slot.go:53-55 | As written, a stream ending inside a slot with enchantments panics. |
| Slots.AsWrittenOvercounts | vendor/github.com/minero/minero-go/types/minecraft/slot.go:53-62 | As written, a slot with enchantments reports more bytes than it took from the stream. |
| Slots.TruncatedSlotIsError | vendor/github.com/minero/minero-go/types/minecraft/slot.go:53-55 | The corrected read reports the same truncated stream as an I/O error. |
| Slots.ReadSlotFrom | vendor/github.com/minero/minero-go/types/minecraft/slot.go:30-63 | The stream method computes `ReadFrom` and advances the stream by what it consumed. |
| Slots.WriteSlotTo | vendor/github.com/minero/minero-go/types/minecraft/slot.go:65-92 | The stream method appends what `WriteTo` specifies and reports its count. |
| Metadata.Kind | vendor/github.com/minero/minero-go/types/minecraft/metadata.go:119-133 | `Type()`: the 3-bit tag of each entry kind, 0 to 6. |
| Metadata.EntryFrom | vendor/github.com/minero/minero-go/types/minecraft/metadata.go:22-40 | `EntryFrom`: a zero entry of the kind tag names for tags 0-6; tag 7 has none. |
| Metadata.ReadPayload | vendor/github.com/minero/minero-go/types/minecraft/metadata.go:64-88 | The payload's `ReadFrom` for type t: with its own count and error; the vector reads its three floats. |
| Metadata.ReadEntries | vendor/github.com/minero/minero-go/types/minecraft/metadata.go:64-88 | `Metadata.ReadFrom` with the loop ending at the first error: entries are stored until the 0x7F terminator. |
| Metadata.Read | vendor/github.com/minero/minero-go/types/minecraft/metadata.go:52-62 | `MetadataFrom`: `ReadEntries` into a new, empty map. |
| Metadata.IterationStuck | vendor/github.com/minero/minero-go/types/minecraft/metadata.go:68-72 | On an exhausted stream with an error recorded, a pass of the as-written loop reads key 0 and touches only entry 0. |
| Metadata.AsWrittenNeverEnds | vendor/github.com/minero/minero-go/types/minecraft/metadata.go:68-72 | As written, a stream ending before the terminator never reads 0x7F: the loop runs for ever. |
| Metadata.EmptyStreamNeverEnds | vendor/github.com/minero/minero-go/types/minecraft/metadata.go:68-72 | The empty stream is such a stream. |
| Metadata.UnknownTypePanics | vendor/github.com/minero/minero-go/types/minecraft/metadata.go:22-80 | A key byte with type tag 7 panics. |
| Metadata.KeyByteFields | vendor/github.com/minero/minero-go/types/minecraft/metadata.go:74-96 | The key byte's top three bits are the type and the low five the index. |
| Metadata.Bytes | vendor/github.com/minero/minero-go/types/minecraft/metadata.go:90-109 | The bytes of the map: each entry's key byte and payload in the enumeration order, then 0x7F. |
| Metadata.WriteTo | vendor/github.com/minero/minero-go/types/minecraft/metadata.go:90-109 | `Metadata.WriteTo`: those bytes through `Must`, counted. |
| Metadata.PartialStep | vendor/github.com/minero/minero-go/types/minecraft/metadata.go:64-88 | One more entry: its key byte, then its payload, whose count and error go through `Must`. |
| Metadata.PayloadRoundTrip | vendor/github.com/minero/minero-go/types/minecraft/metadata.go:64-109 | Every payload reads back as itself through the type its key names. |
| Metadata.FloatRoundTrip | vendor/github.com/minero/minero-go/types/minecraft/metadata.go:64-109 | A float payload is four bytes and reads back as the same bits. |
| Metadata.VectorRoundTrip | vendor/github.com/minero/minero-go/types/minecraft/metadata.go:135-141 | A vector payload is three coordinates read back in order. |
| Metadata.FoldContents | vendor/github.com/minero/minero-go/types/minecraft/metadata.go:64-88 | Storing the entries named by the order: they take the map's values, the other keys keep theirs. |
| Metadata.FoldEnumeration | vendor/github.com/minero/minero-go/types/minecraft/metadata.go:64-88 | Storing the entries of an enumeration into an empty map rebuilds the map. |
| Metadata.EntryStep | vendor/github.com/minero/minero-go/types/minecraft/metadata.go:64-88 | Reading one encoded entry stores it and continues with what follows. |
| Metadata.EntriesRoundTrip | vendor/github.com/minero/minero-go/types/minecraft/metadata.go:64-109 | Reading the encoded entries stores each and stops after the terminator. |
| Metadata.ConsStep | vendor/github.com/minero/minero-go/types/minecraft/metadata.go:64-109 | The inductive step of the entries round trip. |
| Metadata.ConsBytes | vendor/github.com/minero/minero-go/types/minecraft/metadata.go:90-109 | A non-empty list encodes as its first key byte and payload, then the rest. |
| Metadata.TerminatorStep | vendor/github.com/minero/minero-go/types/minecraft/metadata.go:64-88 | Reading the terminator ends the list. |
| Metadata.ReadWriteRoundTrip | vendor/github.com/minero/minero-go/types/minecraft/metadata.go:52-109 | Whatever order the map is enumerated in, reading back what was written yields the map, counting every byte. |
| Metadata.Example | vendor/github.com/minero/minero-go/types/minecraft/metadata.go:52-109 | The package test vector written in key order reads back as the same map. |
| Metadata.ExampleBytes | vendor/github.com/minero/minero-go/types/minecraft/metadata.go:90-109 | The test vector's encoding: each entry, then the terminator. |
| Metadata.ExampleEntries | vendor/github.com/minero/minero-go/types/minecraft/metadata.go:90-109 | The test vector's entries, one at a time. |
| Metadata.ExampleKeysAndPayloads | vendor/github.com/minero/minero-go/types/minecraft/metadata.go:90-109 | The key bytes and payloads of the test vector. |
| Metadata.ExampleKeys | vendor/github.com/minero/minero-go/types/minecraft/metadata.go:90-109 | Key bytes of a byte at index 0 and 6 and a short at index 1. |
| Metadata.ExamplePayloadBytes | vendor/github.com/minero/minero-go/types/minecraft/metadata.go:90-109 | 0 as one byte and 300 as two big-endian bytes. |
| Metadata.ExampleValid | vendor/github.com/minero/minero-go/types/minecraft/metadata.go:52-109 | The test vector can be carried, and [0, 1, 6] enumerates it. |
| Metadata.EnumerationReads | vendor/github.com/minero/minero-go/types/minecraft/metadata.go:52-109 | The round trip with nothing after the encoding. |
| Metadata.FloatAtIndex31IsLost | vendor/github.com/minero/minero-go/types/minecraft/metadata.go:68-96 | A float at index 31 has key byte 0x7F, the terminator: the map reads back without it. |
| Metadata.ReadPayloadFrom | vendor/github.com/minero/minero-go/types/minecraft/metadata.go:64-88 | The stream method computes `ReadPayload`. |
| Metadata.ReadMetadataFrom | vendor/github.com/minero/minero-go/types/minecraft/metadata.go:64-88 | The stream loop computes `ReadEntries`. |
| Metadata.WritePayloadTo | vendor/github.com/minero/minero-go/types/minecraft/metadata.go:90-109 | A payload's `WriteTo` on a stream: the destination gets the payload bytes, or nothing when it fails. |
| Metadata.EntriesBytesSnoc | vendor/github.com/minero/minero-go/types/minecraft/metadata.go:90-109 | One more key in the order appends its key byte and payload. |
| Metadata.WriteMetadataTo | vendor/github.com/minero/minero-go/types/minecraft/metadata.go:90-109 | `Metadata.WriteTo` on a stream: the map enumerated in some order, the destination getting `Bytes` in that order. |
| Sections.Quot | vendor/github.com/minero/minero/server/login.go:124-130 | Go's truncating `/`: the quotient rounds toward zero. |
| Sections.SectionCount | vendor/github.com/minero/minero/server/login.go:124-130 | `sections`: `height / 16` truncated, or 1 when that is 0, so never 0. |
| Sections.SectionMask | vendor/github.com/minero/minero/server/login.go:132-134 | `sectionMask`: `1<<s - 1` in uint16, so 0xFFFF from s = 16 on, and a value below 65536 always. |
| Sections.SectionCountPositive | vendor/github.com/minero/minero/server/login.go:124-130 | The count is at least 1 exactly for heights above -16. |
| Sections.SectionCountMonotone | vendor/github.com/minero/minero/server/login.go:124-130 | For non-negative heights the count grows with the height. |
| Sections.MaskHasCountBits | vendor/github.com/minero/minero/server/login.go:124-134 | For counts up to 16 the mask is exactly the count's low bits set. |
| Sections.TallColumnsMaskAll | vendor/github.com/minero/minero/server/login.go:124-134 | Columns of 256 blocks or more announce all sixteen sections. |
| Sections.LoginColumn | vendor/github.com/minero/minero/server/login.go:124-134 | The login handler's 64-block column has 4 sections, mask 0x0F. |
| Player.Ticks | vendor/github.com/minero/minero-go/server/player/player.go:102-107 | `util.Ticks`: seconds to game ticks (20 a second), never fewer ticks than seconds. |
| Player.JustLoginMetadata | vendor/github.com/minero/minero-go/server/player/player.go:36-43 | The metadata announced for a player who has just logged in. |
| Player.Player.constructor | vendor/github.com/minero/minero-go/server/player/player.go:36-43 | `New`: the entity id is the generator's next id (the generator advancing as `Take` says); every other field is zero. |
| Player.Player.OnlineMode | vendor/github.com/minero/minero-go/server/player/player.go:53-58 | `OnlineMode`: the authentication flag is set, nothing else changes. |
| Player.Player.SetReady | vendor/github.com/minero/minero-go/server/player/player.go:60 | `SetReady`: ready, nothing else changes. |
| Player.Player.SetPos | vendor/github.com/minero/minero-go/server/player/player.go:62-68 | `SetPos`: all three coordinates, nothing else. |
| Player.Player.SetX | vendor/github.com/minero/minero-go/server/player/player.go:70 | `SetX`: x only. |
| Player.Player.SetY | vendor/github.com/minero/minero-go/server/player/player.go:71 | `SetY`: y only. |
| Player.Player.SetZ | vendor/github.com/minero/minero-go/server/player/player.go:72 | `SetZ`: z only. |
| Player.Player.SetLook | vendor/github.com/minero/minero-go/server/player/player.go:74-79 | `SetLook`: pitch and yaw, nothing else. |
| Player.Player.SetPitch | vendor/github.com/minero/minero-go/server/player/player.go:81 | `SetPitch`: pitch only. |
| Player.Player.SetYaw | vendor/github.com/minero/minero-go/server/player/player.go:82 | `SetYaw`: yaw only. |
| Player.Player.Send | vendor/github.com/minero/minero-go/server/player/player.go:85-112 | The packet is appended to the player's connection, nothing else changes. |
| Player.Player.SendMessage | vendor/github.com/minero/minero-go/server/player/player.go:85-88 | `SendMessage`: one chat packet holding the message on the connection. |
| Player.Player.BroadcastMessage | vendor/github.com/minero/minero-go/server/player/player.go:92-99 | `BroadcastMessage`: every ready player of the list except the sender receives the chat packet once; no one else changes. |
| Player.Player.Tick | vendor/github.com/minero/minero-go/server/player/player.go:102-107 | `Tick`: a keep-alive with the given id is sent exactly on multiples of 1000 ticks. |
| Player.Player.Destroy | vendor/github.com/minero/minero-go/server/player/player.go:110-112 | `Destroy`: the entity id goes back to the generator as `Release` says. |
| Player.Deliver | vendor/github.com/minero/minero-go/server/player/player.go:92-99 | A player's state after a broadcast: one more packet if ready, unchanged otherwise; readiness and name are kept. |
| Player.DeliverFrom | vendor/github.com/minero/minero-go/server/player/player.go:92-99 | The same, the sender being skipped. |
| Player.KeepAliveSchedule | vendor/github.com/minero/minero-go/server/player/player.go:102-107 | Keep-alives go out exactly on multiples of 1000 ticks, once every 50 seconds. |
| Player.NewThenDestroyReuses | vendor/github.com/minero/minero-go/server/player/player.go:36-112 | A player created and destroyed with nothing queued hands its id back: the next id handed out is it. |
| Players.Players.constructor | vendor/github.com/minero/minero/server/list/players/players.go:18-22 | `New`: an empty list. |
| Players.Players.Len | vendor/github.com/minero/minero/server/list/players/players.go:25-29 | `Len`: the number of players filed. |
| Players.Players.GetPlayer | vendor/github.com/minero/minero/server/list/players/players.go:43-47 | `GetPlayer`: the player filed under the name, or null when there is none. |
| Players.Players.Copy | vendor/github.com/minero/minero/server/list/players/players.go:32-40 | `Copy`: a fresh map with the same entries. |
| Players.Players.AddPlayer | vendor/github.com/minero/minero/server/list/players/players.go:50-54 | `AddPlayer`: `p` filed under its name, replacing any other; nothing else changes. |
| Players.Players.RemPlayer | vendor/github.com/minero/minero/server/list/players/players.go:57-61 | `RemPlayer`: the name removed; nothing else changes. |
| Players.Players.BroadcastPacket | vendor/github.com/minero/minero/server/list/players/players.go:64-72 | `BroadcastPacket`: each ready player gets the packet exactly once, the others nothing. |
| Players.Players.BroadcastMessage | vendor/github.com/minero/minero/server/list/players/players.go:75-83 | `BroadcastMessage`: each ready player gets the chat packet exactly once, the others nothing. |
| Players.Players.ReadyNames | vendor/github.com/minero/minero/server/list/players/players.go:64-105 | The names of the ready players, a subset of those filed. |
| Players.Players.SpawnMap | vendor/github.com/minero/minero/server/list/players/players.go:86-105 | For each ready player, the spawn packet announcing it. |
| Players.Players.BroadcastLogin | vendor/github.com/minero/minero/server/list/players/players.go:86-105 | `BroadcastLogin`: `to` receives exactly one named-entity spawn per ready player, in some order, carrying its id, name, position and look. |
| Players.Players.CollectSpawns | vendor/github.com/minero/minero/server/list/players/players.go:86-105 | The loop of `BroadcastLogin`: the spawns of an enumeration of the ready players. |
| Players.Mapped | vendor/github.com/minero/minero/server/list/players/players.go:86-105 | The values at the keys of the order, in that order. |
| Players.EnumerationLength | vendor/github.com/minero/minero/server/list/players/players.go:86-105 | An enumeration of a set is as long as the set. |
| Players.Spawn | vendor/github.com/minero/minero/server/list/players/players.go:86-105 | The spawn packet of a player: its id, name, position, look and held item. |
| Tickers.Tickers.constructor | vendor/github.com/minero/minero/server/list/tickers/tickers.go:17-21 | `New`: an empty list. |
| Tickers.Tickers.Len | vendor/github.com/minero/minero/server/list/tickers/tickers.go:24-28 | `Len`: the number of tickers filed. |
| Tickers.Tickers.Copy | vendor/github.com/minero/minero/server/list/tickers/tickers.go:31-39 | `Copy`: a fresh map with the same entries. |
| Tickers.Tickers.GetTicker | vendor/github.com/minero/minero/server/list/tickers/tickers.go:42-46 | `GetTicker`: the ticker of that id, or none. |
| Tickers.Tickers.AddTicker | vendor/github.com/minero/minero/server/list/tickers/tickers.go:49-53 | `AddTicker`: `t` filed under id, replacing any other; nothing else changes. |
| Tickers.Tickers.RemTicker | vendor/github.com/minero/minero/server/list/tickers/tickers.go:56-60 | `RemTicker`: the id removed; nothing else changes. |
| Tickers.Tickers.TickAll | vendor/github.com/minero/minero/server/list/tickers/tickers.go:63-69 | `TickAll`: every ticker is ticked exactly once with the tick. |
| Tickers.AddThenRemove | vendor/github.com/minero/minero/server/list/tickers/tickers.go:49-60 | Adding then removing the same id leaves the list without it and otherwise as it was. |
| Text.TrimSpace | vendor/github.com/minero/minero-go/config/config.go:84-97 | `strings.TrimSpace`: no white space left at either end. |
| Text.TrimSpaceTrims | vendor/github.com/minero/minero-go/config/config.go:91-97 | `TrimSpace` gives a trimmed string and leaves a trimmed string alone. |
| Text.TrimSpaceWithout | vendor/github.com/minero/minero-go/config/config.go:91-97 | Trimming adds no rune the string did not hold. |
| Text.TrimTabs | vendor/github.com/minero/minero-go/config/config.go:89-92 | A tab-indented line trims down to what follows the tabs. |
| Text.RepeatTabs | vendor/github.com/minero/minero-go/config/map.go:64-69 | Every rune of `Repeat("\t", n)` is a tab. |
| Text.IndexOf | vendor/github.com/minero/minero-go/config/config.go:96-97 | `strings.Index` of one rune: the first position holding it, or -1 when none does. |
| Text.Count | vendor/github.com/minero/minero-go/config/map.go:46 | `strings.Count` of one rune: the number of positions holding it. |
| Text.Repeat | vendor/github.com/minero/minero-go/config/map.go:64-69 | `strings.Repeat` for a count that is not negative: n copies. |
| Text.Split | vendor/github.com/minero/minero-go/config/config.go:82 | `strings.Split` around one rune: the pieces between the separators. |
| Text.JoinSplit | vendor/github.com/minero/minero-go/config/config.go:82-123 | Joining the pieces of a split around the separator gives back the string. |
| Text.SplitNoneHolds | vendor/github.com/minero/minero-go/config/config.go:82 | No piece of a split holds the separator. |
| Text.SplitJoin | vendor/github.com/minero/minero-go/config/map.go:78 | Splitting pieces joined around a separator none of them holds gives back the pieces. |
| Text.SplitCount | vendor/github.com/minero/minero-go/config/map.go:45-46 | A split has one more piece than the string has separators. |
| Text.LessTotal | vendor/github.com/minero/minero-go/config/map.go:22-37 | Any two different strings are ordered one way round, and only one. |
| Text.SortStrings | vendor/github.com/minero/minero-go/config/map.go:22-37 | `sort.Strings`: the same keys, as a sorted sequence. |
| Text.InsertSorted | vendor/github.com/minero/minero-go/config/map.go:22-37 | Inserting a new key into sorted keys keeps them sorted and adds just that key. |
| Text.SortSorted | vendor/github.com/minero/minero-go/config/map.go:22-37 | Sorting distinct keys gives them strictly increasing, and the same keys. |
| Text.SortedUnique | vendor/github.com/minero/minero-go/config/map.go:22-37 | Only one strictly increasing sequence holds a given set of keys. |
| Text.SortedExists | vendor/github.com/minero/minero-go/config/map.go:18-22 | Every finite set of keys has a sorted enumeration. |
| Text.SortedKeys | vendor/github.com/minero/minero-go/config/map.go:18-22 | The keys of a set in increasing order: strictly increasing, exactly the set. |
| Text.SortedDistinct | vendor/github.com/minero/minero-go/config/map.go:18-22 | A strictly increasing sequence holds no key twice. |
| Config.Level | vendor/github.com/minero/minero-go/config/config.go:149-158 | The indentation level: the longest prefix of tabs and spaces. |
| Config.LineLevel | vendor/github.com/minero/minero-go/config/config.go:149-158 | The loop of `lineLevel` computes `Level`. |
| Config.HasRoot | vendor/github.com/minero/minero-go/config/config.go:137-147 | `hasRoot`: true exactly when the chain reaches `end` and its first `end` names are not empty. |
| Config.StripCommentClean | vendor/github.com/minero/minero-go/config/config.go:95-98 | Cutting a trimmed value at "#" and trimming again leaves a trimmed value with no "#". |
| Config.PiecesClean | vendor/github.com/minero/minero-go/config/config.go:88-98 | The value the parser takes from a line is trimmed and holds no "#". |
| Config.StoreClean | vendor/github.com/minero/minero-go/config/config.go:113-126 | Storing a clean value keeps every value of the map clean. |
| Config.Store | vendor/github.com/minero/minero-go/config/config.go:108-127 | A value line: "-" stored as "", a top-level key stored as it is, an indented key joined behind the open sections with ".", or the no-root error when a section level is missing. |
| Config.Step | vendor/github.com/minero/minero-go/config/config.go:82-127 | One pass of the parse loop: empty and comment lines skipped, a line without ':' the panic, a section line opening its section, a value line stored (its laws: `StepClean`, `StepKeeps`, `StepValueLine`, `StepSectionLine`). |
| Config.ParseAll | vendor/github.com/minero/minero-go/config/config.go:71-134 | `parse`: `ErrEmpty` for no input, otherwise the lines in order until the first error (its laws: `ParseClean`, `ParseKeeps`, `NestedKey`, `ConfigLaws.SaveParse`). |
| Config.StepClean | vendor/github.com/minero/minero-go/config/config.go:82-127 | Every value one line stores is clean: trimmed, no "#", never the "-" marker. |
| Config.LevelAfterTabs | vendor/github.com/minero/minero-go/config/config.go:89-158 | A line of d tabs then a non-blank rune has level d. |
| Config.StepValueLine | vendor/github.com/minero/minero-go/config/config.go:82-127 | A line of d tabs then `key: value` is stored as that key and value at level d. |
| Config.StepSectionLine | vendor/github.com/minero/minero-go/config/config.go:100-107 | A line of d tabs then `key:` opens that key's section at level d. |
| Config.ParseClean | vendor/github.com/minero/minero-go/config/config.go:71-134 | Every value the parser stores is clean. |
| Config.StepKeeps | vendor/github.com/minero/minero-go/config/config.go:82-127 | No line removes a key. |
| Config.ParseKeeps | vendor/github.com/minero/minero-go/config/config.go:71-134 | Parsing never removes a key already in the map. |
| Config.EmptyInput | vendor/github.com/minero/minero-go/config/config.go:75-77 | An empty input is `ErrEmpty` and leaves the map unchanged. |
| Config.MissingRoot | vendor/github.com/minero/minero-go/config/config.go:117-120 | An indented key with no section open above it stops the parse with an error naming the file, line, key and level, keeping what the lines before it stored. |
| Config.NestedKey | vendor/github.com/minero/minero-go/config/config.go:100-127 | A section line, a value line indented once under it and a top-level value line parse with no error to the two keys: the indented one joined behind its section's name with ".", the top-level one alone. |
| Config.NestedDash | vendor/github.com/minero/minero-go/config/config.go:108-127 | The same input with the "-" marker as the indented value stores "" under the joined key. |
| Config.ParseLinesNext | vendor/github.com/minero/minero-go/config/config.go:82-127 | One pass of the line loop: continue with the next line, or stop with the error and the map so far. |
| Config.Config.New | vendor/github.com/minero/minero-go/config/config.go:20 | `New`: not parsed, no file or input, an empty map. |
| Config.Config.NewFrom | vendor/github.com/minero/minero-go/config/config.go:23 | `NewFrom`: the same, over the given map. |
| Config.Config.Get | vendor/github.com/minero/minero-go/config/config.go:33 | `Get`: the value under the key, or "" when there is none. |
| Config.Config.Set | vendor/github.com/minero/minero-go/config/config.go:36 | `Set`: the key gets the value, every other key keeps its own, and the count grows by one exactly when the key is new. |
| Config.Config.Copy | vendor/github.com/minero/minero-go/config/config.go:39-45 | `Copy`: a new map holding every pair. |
| Config.Config.String | vendor/github.com/minero/minero-go/config/config.go:27 | `String`: `Map{`, the pretty lines, `}`. |
| Config.Config.Save | vendor/github.com/minero/minero-go/config/config.go:66-69 | `Save`: the text the corrected `fileOutput` writes, which always exists. |
| Config.Config.Parse | vendor/github.com/minero/minero-go/config/config.go:48-52 | `Parse`: file name `<string>`; a second parse is a no-op; otherwise the map and error are `ParseAll`'s and `parsed` is set exactly on success. |
| Config.Config.ParseFile | vendor/github.com/minero/minero-go/config/config.go:55-63 | `ParseFile`: an unreadable file is `ReadFailed` with nothing changed; otherwise as `Parse` under the file's name. |
| Config.Config.ParseLine | vendor/github.com/minero/minero-go/config/config.go:82-127 | One pass of the line loop: the open sections and the map after the line, or the error with the map unchanged, as `Step` says. |
| Config.Config.SplitLine | vendor/github.com/minero/minero-go/config/config.go:88-98 | The key and value of a line as `Pieces` gives them; no ":" is the index-out-of-range panic. |
| Config.Config.OpenSection | vendor/github.com/minero/minero-go/config/config.go:100-107 | A section line: the chain as `Open` gives it, or the panic of a level deeper than the chain. |
| Config.Config.StoreValue | vendor/github.com/minero/minero-go/config/config.go:113-126 | A value line: at level 0 the key is stored as is; deeper, with no root the error `NoRoot`, otherwise the key joined behind its sections. |
| Config.Config.ParseInput | vendor/github.com/minero/minero-go/config/config.go:71-134 | `parse`: a second call is a no-op; otherwise the map and the error are those of `ParseAll` and `parsed` is set exactly on success. |
| ConfigMap.CollectKeys | vendor/github.com/minero/minero-go/config/map.go:33-36 | The range loop collects every key of the map exactly once. |
| ConfigMap.SortedKeysOf | vendor/github.com/minero/minero-go/config/map.go:33-37 | The collected keys after `sort.Strings` are the map's keys in increasing order. |
| ConfigMap.EscapeRune | vendor/github.com/minero/minero-go/config/map.go:26 | `%q` writes no rune as a newline. |
| ConfigMap.PrettyLines | vendor/github.com/minero/minero-go/config/map.go:24-27 | One pretty line per key. |
| ConfigMap.PrettyMap | vendor/github.com/minero/minero-go/config/map.go:17-30 | `PrettyMap`: the keys' lines, sorted by key, joined by newlines. |
| ConfigMap.MapString | vendor/github.com/minero/minero-go/config/map.go:12-14 | `Map.String`: the pretty lines between `Map{` and `}`. |
| ConfigMap.PrettyMapLines | vendor/github.com/minero/minero-go/config/map.go:17-30 | When no value holds a newline, `PrettyMap` splits into exactly one line per key, in increasing key order. |
| ConfigMap.RenderAll | vendor/github.com/minero/minero-go/config/map.go:75-78 | One text line per line written. |
| ConfigMap.Marker | vendor/github.com/minero/minero-go/config/map.go:71-74 | The value as saved is never empty; it is "-" exactly for "" and "-". |
| ConfigMap.Output | vendor/github.com/minero/minero-go/config/map.go:32-79 | What `fileOutput` returns: the lines for the sorted keys, headers first, joined by newlines, or nothing where it panics (its laws: `IntendedNeverPanics`, `PairsFollowKeys`, `DotlessKeyPanics`). |
| ConfigMap.FileOutput | vendor/github.com/minero/minero-go/config/map.go:32-79 | `fileOutput` computes `Output`: `None` where it panics. |
| ConfigMap.WriteKey | vendor/github.com/minero/minero-go/config/map.go:44-76 | The loop body for one key computes `KeyStep`. |
| ConfigMap.LinesPanic | vendor/github.com/minero/minero-go/config/map.go:44-76 | A key whose step panics makes the whole output panic. |
| ConfigMap.LinesNext | vendor/github.com/minero/minero-go/config/map.go:44-76 | After one key the lines written grow by that key's lines. |
| ConfigMap.HeadersOnce | vendor/github.com/minero/minero-go/config/map.go:39-66 | Each header is written at most once, and never one already seen. |
| ConfigMap.StepHeaders | vendor/github.com/minero/minero-go/config/map.go:60-66 | One key writes at most one header, a new one, and then counts it as seen. |
| ConfigMap.PairsFollowKeys | vendor/github.com/minero/minero-go/config/map.go:44-76 | One key/value line per key in the keys' order, indented one tab per dot, with "-" for an empty value. |
| ConfigMap.StepDotted | vendor/github.com/minero/minero-go/config/map.go:44-76 | A dotted key: a header for its parent unless seen, then its line. |
| ConfigMap.StepDotlessIntended | vendor/github.com/minero/minero-go/config/map.go:51-66 | A dotless key, corrected: its line alone. |
| ConfigMap.StepDotlessAsWritten | vendor/github.com/minero/minero-go/config/map.go:51-66 | A dotless key as written: `Repeat` with count -1 panics unless the empty header was seen. |
| ConfigMap.StepPair | vendor/github.com/minero/minero-go/config/map.go:68-75 | One key writes exactly one key/value line, the last of its lines. |
| ConfigMap.HeaderThenPair | vendor/github.com/minero/minero-go/config/map.go:60-75 | At most one header, then the key/value line. |
| ConfigMap.DotlessKeyPanics | vendor/github.com/minero/minero-go/config/map.go:51-66 | As written, a dotless key panics unless a key before it put the empty header among the seen ones. |
| ConfigMap.IntendedNeverPanics | vendor/github.com/minero/minero-go/config/map.go:32-79 | The corrected output never panics. |
| ConfigMap.TopLevelKeyAsWritten | vendor/github.com/minero/minero-go/config/map.go:60-66 | As written, `port: 25565` alone panics; corrected, it is written as that line. |
| ConfigLaws.LinesOfFlat | vendor/github.com/minero/minero-go/config/map.go:44-76 | Flat keys (no dot) are written as one line each, with no header. |
| ConfigLaws.StepFlatLine | vendor/github.com/minero/minero-go/config/config.go:82-127 | A flat key's line is read back as a store of its value at level 0. |
| ConfigLaws.ParseFlatLines | vendor/github.com/minero/minero-go/config/config.go:82-127 | Parsing the lines of flat keys stores every value in order and stops at nothing. |
| ConfigLaws.StoreAllCovers | vendor/github.com/minero/minero-go/config/config.go:126 | Storing every key of a map over another gives exactly the map on those keys. |
| ConfigLaws.FlatLinesOneLine | vendor/github.com/minero/minero-go/config/map.go:75 | No line of a flat map holds a newline. |
| ConfigLaws.FlatText | vendor/github.com/minero/minero-go/config/map.go:78 | The corrected output of a flat map and the lines it splits back into. |
| ConfigLaws.SaveParse | vendor/github.com/minero/minero-go/config/config.go:66-134 | A nonempty map of flat keys with clean one-line values, saved (corrected) and parsed again, is the same map, with no error. |
| NbtTag.TypeOf | vendor/github.com/minero/minero-go/proto/nbt/nbt.go:32-46 | `Type()`: every tag has one of the twelve type bytes; 0 exactly for `End`, 10 exactly for `Compound`. |
| NbtTag.Widths | vendor/github.com/minero/minero-go/proto/nbt/nbt.go:34-45 | The byte widths 1, 2, 4 and 8 span 2^8, 2^16, 2^32 and 2^64 values. |
| NbtTag.IntBytes | vendor/github.com/minero/minero-go/proto/nbt/array.go:136-156 | An integer is written as exactly k big-endian bytes. |
| NbtTag.ElementsLength | vendor/github.com/minero/minero-go/proto/nbt/array.go:72-156 | An array of n elements of k bytes takes k*n bytes. |
| NbtTag.StringBytes | vendor/github.com/minero/minero-go/proto/nbt/string.go:53-69 | A `String` on the wire is its byte count (2 bytes) and its bytes. |
| NbtTag.Write | vendor/github.com/minero/minero/proto/nbt/util.go:38-55 | `Write`: type byte, name as a `String`, then the payload: 3 + name + payload bytes. |
| NbtTag.KeySet | vendor/github.com/minero/minero/proto/nbt/compound.go:107 | The first entry's key is among the keys of a compound. |
| NbtTag.KeySetHas | vendor/github.com/minero/minero/proto/nbt/compound.go:107 | A key is among the keys exactly when some entry has it. |
| NbtTag.Lookup | vendor/github.com/minero/minero/proto/nbt/compound.go:37-49 | `Compound.Lookup`: the part before the first '/' names an entry, the rest is looked up in it, a missing entry or a tag that is not a compound gives nothing (its laws: `NbtLaws.LookupJoin`, `LookupKey`, `LookupLeaf`). |
| NbtTag.Put | vendor/github.com/minero/minero/proto/nbt/compound.go:107 | `c.Value[name] = tag`: the entry of that key is replaced in place, or a new one is added at the end (its laws: `NbtTag.PutKeys`, `PutFind`, `PutDistinct`). |
| NbtTag.Payload | vendor/github.com/minero/minero/proto/nbt/compound.go:114-145 | The bytes each tag's `WriteTo` writes: its value, big-endian, length-prefixed for strings, arrays and lists, a compound's entries each as type, name and payload, then the end byte (`NbtRoundTrip.ReadWrite` reads it back). |
| NbtTag.WriteCount | vendor/github.com/minero/minero/proto/nbt/compound.go:114-145 | The count each tag's `WriteTo` reports, as written or corrected (`NbtLaws.WriteCountIsLength` ties the corrected one to the bytes written). |
| NbtTag.Size | vendor/github.com/minero/minero/proto/nbt/compound.go:26-35 | `Size()` of each tag, an `IntArray` counted at one byte per element as written (`NbtLaws.SizeIsWireLength` relates it to the payload length). |
| NbtTag.Find | vendor/github.com/minero/minero/proto/nbt/compound.go:39 | `c.Value[key]`: nothing exactly when no entry has the key; otherwise an entry of that key holds the result. |
| NbtTag.PutKeys | vendor/github.com/minero/minero/proto/nbt/compound.go:107 | `c.Value[name] = tag` adds the key, at the end when it is new. |
| NbtTag.PutFind | vendor/github.com/minero/minero/proto/nbt/compound.go:107 | After the store the key finds the new tag, and every other key what it found before. |
| NbtTag.PutDistinct | vendor/github.com/minero/minero/proto/nbt/compound.go:107 | Storing keeps the keys distinct. |
| NbtTag.FirstSlash | vendor/github.com/minero/minero/proto/nbt/compound.go:38 | The first '/' of a path (its length when none): no '/' before it. |
| NbtTag.ReadBack | vendor/github.com/minero/minero/proto/nbt/compound.go:91-96 | What reading gives back for a written tag (compounds renamed after their key or emptied in lists): the same type. |
| NbtTag.ReadBackItems | vendor/github.com/minero/minero-go/proto/nbt/list.go:41-75 | Reading back keeps the number of list items. |
| NbtTag.ReadBackField | vendor/github.com/minero/minero/proto/nbt/compound.go:91-107 | Reading back keeps each entry's key. |
| NbtTag.ReadBackFields | vendor/github.com/minero/minero/proto/nbt/compound.go:63-111 | Reading back keeps the number of entries. |
| NbtRead.ReadString | vendor/github.com/minero/minero-go/proto/nbt/string.go:26-50 | `String.ReadFrom`: a success takes at least the 2-byte prefix and yields under 65536 bytes; corrected, the count is the bytes taken. |
| NbtRead.ReadFixed | vendor/github.com/minero/minero/proto/nbt/integer.go:1-52 | A k-byte integer: a success exactly when k bytes are there, taking and counting exactly k. |
| NbtRead.ReadFixedIsReadFrom | vendor/github.com/minero/minero/proto/nbt/integer.go:1-52 | `ReadFixed` is the integer codec's `ReadFrom`, a failure being an I/O error. |
| NbtRead.EndTypeByte | vendor/github.com/minero/minero/proto/nbt/compound.go:70-75 | A type byte read as `TagEnd` is a zero byte. |
| NbtRead.ReadElements | vendor/github.com/minero/minero-go/proto/nbt/array.go:46-133 | The element loop: on success count more k-byte elements after those already read, every byte counted. |
| NbtRead.ReadArray | vendor/github.com/minero/minero-go/proto/nbt/array.go:46-133 | An array's `ReadFrom`: at most MaxInt32 elements, each of k bytes, every byte counted. |
| NbtRead.ReadInteger | vendor/github.com/minero/minero/proto/nbt/integer.go:1-52 | The four integer tags' `ReadFrom`: a tag of the asked type, every byte counted. |
| NbtRead.ReadReal | vendor/github.com/minero/minero/proto/nbt/real.go:1-30 | The two float tags' `ReadFrom`: a tag of the asked type, every byte counted. |
| NbtRead.ReadArrayTag | vendor/github.com/minero/minero-go/proto/nbt/array.go:46-133 | The two array tags' `ReadFrom`: a tag of the asked type, every byte counted. |
| NbtRead.ReadLeaf | vendor/github.com/minero/minero/proto/nbt/end.go:19-29 | The tags that hold no other tag: the asked type; corrected, every byte counted. |
| NbtRead.ReadPayload | vendor/github.com/minero/minero/proto/nbt/compound.go:90-104 | A tag's `ReadFrom` on a fresh tag of type tt gives a tag of that type; corrected, every byte counted. |
| NbtRead.ReadList | vendor/github.com/minero/minero-go/proto/nbt/list.go:41-75 | `List.ReadFrom` gives a list; corrected, every byte counted. |
| NbtRead.ReadItems | vendor/github.com/minero/minero-go/proto/nbt/list.go:41-75 | The item loop; corrected, every byte counted. |
| NbtRead.ReadEntry | vendor/github.com/minero/minero/proto/nbt/compound.go:69-108 | One pass of the entry loop: an entry takes at least one byte; corrected, a `TagEnd` end takes exactly the zero byte. |
| NbtRead.ReadEntries | vendor/github.com/minero/minero/proto/nbt/compound.go:63-111 | The entry loop: corrected, it takes at least the closing byte and counts every byte. |
| NbtRead.Read | vendor/github.com/minero/minero/proto/nbt/util.go:8-35 | `Read` gives a compound and never more than the input. |
| NbtLaws.SizeIsWireLength | vendor/github.com/minero/minero/proto/nbt/compound.go:26-35 | With an `IntArray` counted at 4 bytes an element, `Size` is the payload length plus the slack compounds claim for names. |
| NbtLaws.SizesAreWireLength | vendor/github.com/minero/minero-go/proto/nbt/list.go:21-27 | The same over the items of a list. |
| NbtLaws.FieldSizeIsWireLength | vendor/github.com/minero/minero/proto/nbt/compound.go:29-33 | The same for one entry of a compound. |
| NbtLaws.FieldSizesAreWireLength | vendor/github.com/minero/minero/proto/nbt/compound.go:26-35 | The same for all entries of a compound. |
| NbtLaws.FlatSizeIsExact | vendor/github.com/minero/minero-go/proto/nbt/nbt.go:34-45 | A tag with no compound inside has `Size` equal to its payload length. |
| NbtLaws.WriteCountIsLength | vendor/github.com/minero/minero-go/proto/nbt/string.go:53-69 | Corrected, the count `WriteTo` reports is the number of payload bytes written. |
| NbtLaws.WriteCountsAreLength | vendor/github.com/minero/minero-go/proto/nbt/list.go:78-102 | The same over the items of a list. |
| NbtLaws.EntryCountIsLength | vendor/github.com/minero/minero/proto/nbt/compound.go:114-145 | The same for one entry. |
| NbtLaws.EntriesCountIsLength | vendor/github.com/minero/minero/proto/nbt/compound.go:114-145 | The same for all entries. |
| NbtLaws.FirstSlashOfJoin | vendor/github.com/minero/minero/proto/nbt/compound.go:38 | The first '/' of a joined path is that of its first part if it has one. |
| NbtLaws.LookupJoin | vendor/github.com/minero/minero/proto/nbt/compound.go:37-49 | `Lookup("a/b")` is `Lookup(b)` on what `Lookup(a)` gives; nothing anywhere gives nothing. |
| NbtLaws.LookupKey | vendor/github.com/minero/minero/proto/nbt/compound.go:37-49 | A key with no '/' finds exactly that entry. |
| NbtLaws.LookupLeaf | vendor/github.com/minero/minero/proto/nbt/integer.go:17 | A tag that is not a compound answers nothing to every path. |
| NbtLaws.ReadBackKeepsPayload | vendor/github.com/minero/minero/proto/nbt/compound.go:91-96 | Reading back changes no byte on the wire. |
| NbtLaws.ReadBackKeepsPayloads | vendor/github.com/minero/minero-go/proto/nbt/list.go:41-102 | The same over list items. |
| NbtLaws.ReadBackKeepsEntry | vendor/github.com/minero/minero/proto/nbt/compound.go:63-145 | The same for one entry. |
| NbtLaws.ReadBackKeepsEntries | vendor/github.com/minero/minero/proto/nbt/compound.go:63-145 | The same for all entries. |
| NbtLaws.ReadBackIdempotent | vendor/github.com/minero/minero/proto/nbt/compound.go:91-96 | Reading back twice is reading back once. |
| NbtLaws.ReadBackItemsIdempotent | vendor/github.com/minero/minero-go/proto/nbt/list.go:41-75 | The same over list items. |
| NbtLaws.ReadBackFieldsIdempotent | vendor/github.com/minero/minero/proto/nbt/compound.go:63-111 | The same over entries. |
| NbtRoundTrip.ReadStringOf | vendor/github.com/minero/minero-go/proto/nbt/string.go:26-69 | A `String` of under 65536 bytes reads back as itself, leaving the rest. |
| NbtRoundTrip.ReadElementsOf | vendor/github.com/minero/minero-go/proto/nbt/array.go:46-156 | The element loop reads back every element written, at both widths. |
| NbtRoundTrip.ReadArrayOf | vendor/github.com/minero/minero-go/proto/nbt/array.go:46-156 | An array of at most MaxInt32 elements reads back as itself. |
| NbtRoundTrip.ReadIntegerOf | vendor/github.com/minero/minero/proto/nbt/integer.go:1-52 | An integer tag reads back as itself. |
| NbtRoundTrip.ReadRealOf | vendor/github.com/minero/minero/proto/nbt/real.go:1-30 | A float tag reads back as itself. |
| NbtRoundTrip.ReadArrayTagOf | vendor/github.com/minero/minero-go/proto/nbt/array.go:46-156 | An array tag reads back as itself. |
| NbtRoundTrip.ReadLeafOf | vendor/github.com/minero/minero/proto/nbt/end.go:19-41 | Every tag holding no other tag reads back as itself. |
| NbtRoundTrip.PayloadRoundTrip | vendor/github.com/minero/minero/proto/nbt/compound.go:63-145 | Every well-formed tag's payload reads back by its own type's `ReadFrom` as `ReadBack` of the tag, leaving the rest. |
| NbtRoundTrip.ListRoundTrip | vendor/github.com/minero/minero-go/proto/nbt/list.go:41-102 | A well-formed list reads back as its items read back. |
| NbtRoundTrip.ReadItemsNext | vendor/github.com/minero/minero-go/proto/nbt/list.go:60-72 | One pass of the item loop. |
| NbtRoundTrip.ReadItemsStep | vendor/github.com/minero/minero-go/proto/nbt/list.go:60-72 | The item loop reads one item and goes on with the others. |
| NbtRoundTrip.ReadItemsOfPieces | vendor/github.com/minero/minero-go/proto/nbt/list.go:60-72 | The item loop over pieces that each read back reads back all of them. |
| NbtRoundTrip.EntryRoundTrip | vendor/github.com/minero/minero/proto/nbt/compound.go:69-108 | One written entry reads back as its key and read-back tag. |
| NbtRoundTrip.ReadEntriesLast | vendor/github.com/minero/minero/proto/nbt/compound.go:74-75 | The pass reading the closing `TagEnd` ends the loop. |
| NbtRoundTrip.PutNew | vendor/github.com/minero/minero/proto/nbt/compound.go:107 | Storing a new key appends the entry. |
| NbtRoundTrip.ReadEntriesOfPieces | vendor/github.com/minero/minero/proto/nbt/compound.go:63-111 | The entry loop over entries that each read back, then a `TagEnd`, stores them in order and stops after it. |
| NbtRoundTrip.ReadEntriesFirst | vendor/github.com/minero/minero/proto/nbt/compound.go:69-108 | One pass over pieces stores the first piece and goes on. |
| NbtRoundTrip.ReadEntriesStep | vendor/github.com/minero/minero/proto/nbt/compound.go:69-108 | The entry loop stores an entry that reads and goes on after it. |
| NbtRoundTrip.DistinctStoresInOrder | vendor/github.com/minero/minero/proto/nbt/compound.go:107 | Entries of distinct new keys are stored in order. |
| NbtRoundTrip.ReadBackFieldsKeys | vendor/github.com/minero/minero/proto/nbt/compound.go:91-107 | Reading back keeps every key, so they stay distinct. |
| NbtRoundTrip.EntriesRoundTrip | vendor/github.com/minero/minero/proto/nbt/compound.go:63-145 | A compound's entries and `TagEnd` read back as its entries read back. |
| NbtRoundTrip.EndEntry | vendor/github.com/minero/minero/proto/nbt/compound.go:74-75 | A `TagEnd` byte ends the compound. |
| NbtRoundTrip.ReadWrite | vendor/github.com/minero/minero/proto/nbt/util.go:8-55 | `Read` undoes `Write`: the compound with its name and every entry (nested compounds named after their keys), the rest of the stream left. |
| NbtRoundTrip.ReadSteps | vendor/github.com/minero/minero/proto/nbt/util.go:8-35 | The three steps of `Read`: type byte, name, entries. |
| NbtFindings.IntArraySizeAsWritten | vendor/github.com/minero/minero-go/proto/nbt/array.go:103 | As written, an `IntArray` of two elements claims 6 bytes; its payload takes 12. |
| NbtFindings.IntArraySizeIntended | vendor/github.com/minero/minero-go/proto/nbt/array.go:103 | Corrected, every `IntArray` claims its payload length. |
| NbtFindings.StringWriteCountAsWritten | vendor/github.com/minero/minero-go/proto/nbt/string.go:53-69 | As written, writing "A" reports 1 byte where 3 are written. |
| NbtFindings.StringReadCountAsWritten | vendor/github.com/minero/minero-go/proto/nbt/string.go:26-50 | As written, reading "abc" reports 6 bytes where 5 are taken. |
| NbtFindings.StringReadCountIntended | vendor/github.com/minero/minero-go/proto/nbt/string.go:26-50 | Corrected, the count reading reports is the bytes taken. |
| NbtFindings.TruncatedCompoundAsWritten | vendor/github.com/minero/minero/proto/nbt/compound.go:70-78 | As written, a compound whose stream ends after its name reads as empty with no error; corrected, that is an I/O error. |
| NbtFindings.EndByteRequired | vendor/github.com/minero/minero/proto/nbt/compound.go:70-78 | Corrected, the entry loop never succeeds on an empty stream. |
| NbtStream.ReadArray | vendor/github.com/minero/minero-go/proto/nbt/array.go:46-133 | The element loop computes `NbtRead.ReadArray`. |
| NbtStream.ReadArrayTag | vendor/github.com/minero/minero-go/proto/nbt/array.go:46-133 | Computes `NbtRead.ReadArrayTag`. |
| NbtStream.ReadPayload | vendor/github.com/minero/minero/proto/nbt/compound.go:90-104 | The dispatch on a fresh tag computes `NbtRead.ReadPayload`. |
| NbtStream.ReadList | vendor/github.com/minero/minero-go/proto/nbt/list.go:41-75 | Computes `NbtRead.ReadList`. |
| NbtStream.ReadItems | vendor/github.com/minero/minero-go/proto/nbt/list.go:60-72 | The item loop computes `NbtRead.ReadItems`. |
| NbtStream.ReadEntry | vendor/github.com/minero/minero/proto/nbt/compound.go:69-108 | One pass computes `NbtRead.ReadEntry`. |
| NbtStream.ReadEntries | vendor/github.com/minero/minero/proto/nbt/compound.go:63-111 | The entry loop computes `NbtRead.ReadEntries`. |
| NbtStream.Read | vendor/github.com/minero/minero/proto/nbt/util.go:8-35 | Computes `NbtRead.Read`. |
| NbtStream.WriteElements | vendor/github.com/minero/minero-go/proto/nbt/array.go:72-93 | The element loop of the arrays' `WriteTo` puts out `Elements` and reports k bytes per element. |
| NbtStream.WritePayload | vendor/github.com/minero/minero/proto/nbt/compound.go:114-145 | A tag's `WriteTo` puts out exactly its `Payload` and reports `WriteCount` (as written or corrected). |
| NbtStream.WriteItems | vendor/github.com/minero/minero-go/proto/nbt/list.go:94-99 | The item loop of `List.WriteTo` puts out the items' payloads in order and adds up their counts. |
| NbtStream.WriteEntries | vendor/github.com/minero/minero/proto/nbt/compound.go:117-136 | The loop of `Compound.WriteTo` puts out each entry's type byte, key and payload, in the entries' order, and adds up their counts. |
| NbtStream.Write | vendor/github.com/minero/minero/proto/nbt/util.go:38-55 | `Write` puts out exactly the bytes `NbtTag.Write` specifies, which `Read` undoes (`NbtRoundTrip.ReadWrite`). |
| NbtNav.Spell | util.go:16-21 | The path the kept elements spell is never empty. |
| NbtNav.Clean | util.go:16-21 | `path.Clean`: never empty ("." at least); its laws are `CleanTwice` and `CleanRooted`. |
| NbtNav.Resolve | util.go:16-21 | `resolve`: never empty; an absolute target is cleaned alone, a relative one joined to the current path first (`ResolveAbsolute`, `ResolveFromRooted`). |
| NbtNav.PushCanonical | util.go:16-21 | Pushing an element onto a canonical stack keeps it canonical (no "", "." or, when rooted, ".."). |
| NbtNav.ElementsCanonical | util.go:16-21 | The elements kept from any path form a canonical stack. |
| NbtNav.FirstSlashAfter | util.go:16-21 | The first slash of a joined path is the one after its first element. |
| NbtNav.ElementsOfSpelled | util.go:16-21 | Re-reading the spelling of a canonical stack gives the stack back. |
| NbtNav.CleanTwice | util.go:16-21 | `path.Clean` is idempotent. |
| NbtNav.SpelledNotRooted | util.go:16-21 | The spelling of relative elements does not start with a slash. |
| NbtNav.CleanRooted | util.go:16-21 | A cleaned path is rooted exactly when the path was. |
| NbtNav.ResolveAbsolute | util.go:16-21 | `resolve` of an absolute path is the cleaned path, whatever the current one. |
| NbtNav.ResolveFromRooted | util.go:16-21 | From a rooted current path `resolve` gives a rooted clean path, so the current path stays absolute. |
| NbtNav.FindHeight | util.go:24-39 | An entry found in a compound is lower than the compound. |
| NbtNav.LookupDeeper | util.go:24-39 | What a path names lies strictly inside the tag it is looked up in. |
| NbtNav.PathToTag | util.go:24-39 | `pathToTag`: the root for the path "/", otherwise the lookup of the resolved path without its leading slash, nothing being `errNotFound` (its laws: `PathToTagRoot`, `PathToTagWalks`). |
| NbtNav.PathToTagRoot | util.go:24-39 | `pathToTag` gives the root exactly when the resolved path is "/". |
| NbtNav.LookupSpelled | util.go:24-39 | Looking up names joined by slashes follows them one by one. |
| NbtNav.ResolveJoined | util.go:16-21 | Resolving against a non-empty current path is cleaning the joined path. |
| NbtNav.SpellRooted | util.go:16-21 | A rooted spelling reads back as its elements, and is "/" only for none. |
| NbtNav.WalkSpelled | util.go:24-39 | Looking up a rooted spelling walks its elements. |
| NbtNav.PathToTagWalks | util.go:24-39 | From a rooted current path, `pathToTag` walks the elements of the cleaned joined path one compound at a time; nothing at any step gives `errNotFound`. |
| NbtNav.SpelledNotEmpty | util.go:16-21 | The spelling of a non-empty stack is longer than "/". |
| NbtNav.Unsigned | util.go:164-183 | `byte(v)` of each signed value: one byte per value. |
| NbtNav.PrettyByteArray | util.go:164-183 | The digits `prettyByteArray` shows: the hex of all bytes, or of the first 37 when the array is long and the short form is asked, the text cut to 37 digits and "..." when it reaches 40. |
| NbtNav.Shown | util.go:164-183 | `prettyByteArray`'s text: the hexadecimal digits of the bytes, of the first 37 when there are more than 40 and the long form is off, a text of 40 digits or more cut to 37 and "..." (its laws: `ShownShort`, `ShownCut`). |
| NbtNav.ShownShort | util.go:164-183 | An array of fewer than 20 bytes is shown in full and its digits read back as its bytes. |
| NbtNav.ShownCut | util.go:164-183 | An array of 20 bytes or more shows the first 37 digits and "...", 40 runes, long form or not. |
| NbtNav.LongFormSame | util.go:164-183 | The long form shows the same text as the short one. |
| NbtNav.LowerRune | util.go:240-248 | Go's per-rune `unicode.ToLower` as far as type names can tell: the result is an ASCII lower-case letter exactly when the rune is a-z, A-Z, the dotted capital I (U+0130) or the Kelvin sign (U+212A). |
| NbtNav.Lower | util.go:240-248 | `strings.ToLower` as far as type names can tell: each rune through `LowerRune` (A-Z, U+0130 and U+212A onto ASCII, every other rune kept), so the length is kept. |
| NbtNav.ShortNamesDistinct | util.go:240-248 | No two of the twelve short names are equal. |
| NbtNav.DottedCapitalI | util.go:240-248 | Lower-casing as Go does, "\U{0130}NT" (a dotted capital I, then NT) is the short name of `Int`. |
| NbtNav.TypeFromString | util.go:240-248 | `typeFromString`: a type whose lower-cased short name equals the lower-cased text, and `None` (-1 and `errInvalidTagType`) exactly when none does. |
| NbtNav.HexValue | util.go:189-238 | A hex digit of either case has a value below 16. |
| NbtNav.DecodeHex | util.go:189-238 | `hex.DecodeString`: on success one byte per two digits (an odd length or a non-digit is an error). |
| NbtNav.Ascii | util.go:189-238 | The bytes of a text of hex digits, one per rune. |
| NbtNav.DecodeHexOfHex | util.go:164-238 | The digits `prettyByteArray` writes decode back to the bytes. |
| NbtNav.Signed | util.go:189-238 | `types.Int8(b)`: the signed byte whose `byte(v)` is b. |
| NbtNav.SetTagValue | util.go:189-238 | `setTagValue`: the tag keeps its type; a number tag is set exactly when the scanned value fits its width; a byte array exactly when the text decodes as hex; a string always. |
| NbtNav.SetShownBytes | util.go:164-238 | Setting a byte array to the digits shown for a short array gives back that array. |
| NbtNav.SetStringAndBytes | util.go:189-238 | A string tag takes the text as it is; a compound is left alone; an odd-length text on a byte array is an error. |
| Fields.KindsOf | vendor/github.com/minero/minero/proto/packet/packet.go:82-107 | The layout of a list of field values: one kind per value. |
| Fields.ReadPrefixed | vendor/github.com/minero/minero/proto/packet/packet.go:2019-2042 | A length-prefixed array: the length, then exactly `ReadByteArray` of it, the stream only advancing. |
| Fields.ReadComposite | vendor/github.com/minero/minero-go/proto/packet/readwriter.go:17-149 | A composite field is read by the `MustReadWriter` call of its kind. |
| Fields.ReadField | vendor/github.com/minero/minero/proto/packet/packet.go:82-107 | One field is read by the `Read*` call its kind names, and has that kind. |
| Fields.ReadNumber | vendor/github.com/minero/minero/util/must/readwriter.go:42-136 | A number field is read by `ReadInt*` or `ReadFloat*` of its width. |
| Fields.ReadFields | vendor/github.com/minero/minero/proto/packet/packet.go:82-93 | The fields of a layout read one after the other, the first error sticking: one value of each kind of the layout, in order. |
| Fields.FieldBytes | vendor/github.com/minero/minero/proto/packet/packet.go:94-107 | The bytes a field puts on the wire: an integer in its width, a float's bits, a map in the enumeration order. |
| Fields.WriteBytesChain | vendor/github.com/minero/minero/util/must/readwriter.go:154-249 | Two writes in a row act as one write of both. |
| Fields.WriteField | vendor/github.com/minero/minero/proto/packet/packet.go:94-107 | One field as its `Write*` call does it: a nil reference panics, everything else writes its bytes. |
| Fields.WriteFieldsHealthy | vendor/github.com/minero/minero/proto/packet/packet.go:94-107 | On a healthy destination, writing valid fields appends their bytes and counts them. |
| Fields.WriteFieldsAfterError | vendor/github.com/minero/minero/proto/packet/packet.go:94-107 | After an error nothing more is written or counted. |
| Fields.WriteFieldsBroken | vendor/github.com/minero/minero/proto/packet/packet.go:94-107 | On a failed destination nothing is written or counted and an error is recorded. |
| Fields.ReadBacks | vendor/github.com/minero/minero/proto/packet/packet.go:82-107 | Reading back keeps the number of fields. |
| Fields.PrefixedRoundTrip | vendor/github.com/minero/minero/proto/packet/packet.go:2019-2042 | A length-prefixed array reads back when its length fits the prefix. |
| Fields.FieldRoundTrip | vendor/github.com/minero/minero/proto/packet/packet.go:82-107 | Every valid field reads back as `ReadBack` of itself, consuming exactly its bytes. |
| Fields.FieldsBytesAppend | vendor/github.com/minero/minero/proto/packet/packet.go:94-107 | The bytes of two runs of fields are the bytes of each in turn. |
| Fields.AllValidWritable | vendor/github.com/minero/minero/proto/packet/packet.go:94-107 | Valid fields hold no nil reference. |
| Fields.ReadFieldsCons | vendor/github.com/minero/minero/proto/packet/packet.go:82-93 | Reading a layout: one field, then the rest. |
| Fields.FieldsReadBack | vendor/github.com/minero/minero/proto/packet/packet.go:82-107 | Reading the fields' layout back from their bytes gives their read-backs, leaves exactly what followed, and records no error. |
| Fields.FieldsRoundTrip | vendor/github.com/minero/minero/proto/packet/packet.go:82-107 | The same, with exactly the fields' bytes added to the count. |
| Fields.ReadFieldFrom | vendor/github.com/minero/minero/proto/packet/packet.go:82-93 | Reading one field on a stream acts as `ReadField`. |
| Fields.ReadNumberFrom | vendor/github.com/minero/minero/util/must/readwriter.go:42-136 | Reading a number on a stream acts as `ReadNumber`. |
| Fields.ReadCompositeFrom | vendor/github.com/minero/minero-go/proto/packet/readwriter.go:17-149 | Reading a composite on a stream acts as `ReadComposite`. |
| Fields.ReadFieldsFrom | vendor/github.com/minero/minero/proto/packet/packet.go:82-93 | The reads of a layout in order act as `ReadFields`. |
| Fields.WriteFieldTo | vendor/github.com/minero/minero/proto/packet/packet.go:94-107 | The `Write*` call of a field acts as `WriteField`. |
| Fields.WritePrefixed | vendor/github.com/minero/minero/proto/packet/packet.go:2019-2042 | A length prefix then the bytes: one write of both, as far as the stream can tell. |
| Fields.WriteFieldsSnoc | vendor/github.com/minero/minero/proto/packet/packet.go:94-107 | Writing one more field after a list of them. |
| Fields.WriteFieldsAppend | vendor/github.com/minero/minero/proto/packet/packet.go:94-107 | Writing two runs of fields in turn is writing the joined run. |
| Fields.WriteFieldsTo | vendor/github.com/minero/minero/proto/packet/packet.go:94-107 | The writes of the fields in order act as `WriteFields`, with the order each map was enumerated in. |
| Packets.KeepAlive.RoundTrip | vendor/github.com/minero/minero/proto/packet/packet.go:53-66 | `KeepAlive` (0x00): `WriteTo` puts out the id and then bytes from which any receiver's `ReadFrom` gets the packet back. |
| Packets.KeepAlive.Layout | vendor/github.com/minero/minero/proto/packet/packet.go:53-58 | The kinds `KeepAlive.ReadFrom` reads, in order: int32. |
| Packets.KeepAlive.Fields | vendor/github.com/minero/minero/proto/packet/packet.go:59-66 | The fields `KeepAlive.WriteTo` writes after the id 0x00, in order: `randomId` as int32. |
| Packets.KeepAlive.ReadFrom | vendor/github.com/minero/minero/proto/packet/packet.go:53-58 | `KeepAlive.ReadFrom` from a fresh count: int32 into `randomId`; the first failed read is the error and stops the rest, the count covers the bytes taken. |
| Packets.KeepAlive.WriteTo | vendor/github.com/minero/minero/proto/packet/packet.go:59-66 | `KeepAlive.WriteTo` from a fresh count: the id 0x00, then the fields; the first failed write is the error and stops the rest, the count covers the bytes written. |
| Packets.KeepAlive.FiveBytes | vendor/github.com/minero/minero/proto/packet/packet.go:59-66 | On a healthy destination `WriteTo` appends the id 0x00 and the random id as a 4-byte big-endian integer, 5 bytes, and counts 5. |
| Packets.LoginInfo.RoundTrip | vendor/github.com/minero/minero/proto/packet/packet.go:82-107 | `LoginInfo` (0x01): `WriteTo` puts out the id and then bytes from which any receiver's `ReadFrom` gets the packet back. The byte the write puts at a fixed zero is read and dropped. |
| Packets.LoginInfo.Layout | vendor/github.com/minero/minero/proto/packet/packet.go:82-93 | The kinds `LoginInfo.ReadFrom` reads, in order: int32, string, int8, int8, int8, int8, int8. |
| Packets.LoginInfo.Fields | vendor/github.com/minero/minero/proto/packet/packet.go:94-107 | The fields `LoginInfo.WriteTo` writes after the id 0x01, in order: `entity` as int32, `levelType` as a string, `gameMode` as int8, `dimension` as int8, `difficulty` as int8, the constant 0 as int8, `maxPlayers` as int8. |
| Packets.LoginInfo.ReadFrom | vendor/github.com/minero/minero/proto/packet/packet.go:82-93 | `LoginInfo.ReadFrom` from a fresh count: int32 into `entity`, string into `levelType`, int8 into `gameMode`, int8 into `dimension`, int8 into `difficulty`, int8, dropped, int8 into `maxPlayers`; the first failed read is the error and stops the rest, the count covers the bytes taken. |
| Packets.LoginInfo.WriteTo | vendor/github.com/minero/minero/proto/packet/packet.go:94-107 | `LoginInfo.WriteTo` from a fresh count: the id 0x01, then the fields; the first failed write is the error and stops the rest, the count covers the bytes written. |
| Packets.Handshake.RoundTrip | vendor/github.com/minero/minero/proto/packet/packet.go:120-139 | `Handshake` (0x02): `WriteTo` puts out the id and then bytes from which any receiver's `ReadFrom` gets the packet back. |
| Packets.Handshake.Layout | vendor/github.com/minero/minero/proto/packet/packet.go:120-128 | The kinds `Handshake.ReadFrom` reads, in order: int8, string, string, int32. |
| Packets.Handshake.Fields | vendor/github.com/minero/minero/proto/packet/packet.go:129-139 | The fields `Handshake.WriteTo` writes after the id 0x02, in order: `version` as int8, `username` as a string, `host` as a string, `port` as int32. |
| Packets.Handshake.ReadFrom | vendor/github.com/minero/minero/proto/packet/packet.go:120-128 | `Handshake.ReadFrom` from a fresh count: int8 into `version`, string into `username`, string into `host`, int32 into `port`; the first failed read is the error and stops the rest, the count covers the bytes taken. |
| Packets.Handshake.WriteTo | vendor/github.com/minero/minero/proto/packet/packet.go:129-139 | `Handshake.WriteTo` from a fresh count: the id 0x02, then the fields; the first failed write is the error and stops the rest, the count covers the bytes written. |
| Packets.ChatMessage.RoundTrip | vendor/github.com/minero/minero/proto/packet/packet.go:157-170 | `ChatMessage` (0x03): `WriteTo` puts out the id and then bytes from which any receiver's `ReadFrom` gets the packet back. |
| Packets.ChatMessage.Layout | vendor/github.com/minero/minero/proto/packet/packet.go:157-162 | The kinds `ChatMessage.ReadFrom` reads, in order: string. |
| Packets.ChatMessage.Fields | vendor/github.com/minero/minero/proto/packet/packet.go:163-170 | The fields `ChatMessage.WriteTo` writes after the id 0x03, in order: `message` as a string. |
| Packets.ChatMessage.ReadFrom | vendor/github.com/minero/minero/proto/packet/packet.go:157-162 | `ChatMessage.ReadFrom` from a fresh count: string into `message`; the first failed read is the error and stops the rest, the count covers the bytes taken. |
| Packets.ChatMessage.WriteTo | vendor/github.com/minero/minero/proto/packet/packet.go:163-170 | `ChatMessage.WriteTo` from a fresh count: the id 0x03, then the fields; the first failed write is the error and stops the rest, the count covers the bytes written. |
| Packets.TimeUpdate.RoundTrip | vendor/github.com/minero/minero/proto/packet/packet.go:185-200 | `TimeUpdate` (0x04): `WriteTo` puts out the id and then bytes from which any receiver's `ReadFrom` gets the packet back. |
| Packets.TimeUpdate.Layout | vendor/github.com/minero/minero/proto/packet/packet.go:185-191 | The kinds `TimeUpdate.ReadFrom` reads, in order: int64, int64. |
| Packets.TimeUpdate.Fields | vendor/github.com/minero/minero/proto/packet/packet.go:192-200 | The fields `TimeUpdate.WriteTo` writes after the id 0x04, in order: `worldAge` as int64, `time` as int64. |
| Packets.TimeUpdate.ReadFrom | vendor/github.com/minero/minero/proto/packet/packet.go:185-191 | `TimeUpdate.ReadFrom` from a fresh count: int64 into `worldAge`, int64 into `time`; the first failed read is the error and stops the rest, the count covers the bytes taken. |
| Packets.TimeUpdate.WriteTo | vendor/github.com/minero/minero/proto/packet/packet.go:192-200 | `TimeUpdate.WriteTo` from a fresh count: the id 0x04, then the fields; the first failed write is the error and stops the rest, the count covers the bytes written. |
| Packets.EntityEquipment.RoundTrip | vendor/github.com/minero/minero/proto/packet/packet.go:211-228 | `EntityEquipment` (0x05): `WriteTo` puts out the id and then bytes from which any receiver's `ReadFrom` gets the packet back, except that the receiver keeps its own `Item`, which is neither written nor read. |
| Packets.EntityEquipment.Layout | vendor/github.com/minero/minero/proto/packet/packet.go:211-218 | The kinds `EntityEquipment.ReadFrom` reads, in order: int32, int16. |
| Packets.EntityEquipment.Fields | vendor/github.com/minero/minero/proto/packet/packet.go:219-228 | The fields `EntityEquipment.WriteTo` writes after the id 0x05, in order: `entity` as int32, `slot` as int16; `item` is not written. |
| Packets.EntityEquipment.ReadFrom | vendor/github.com/minero/minero/proto/packet/packet.go:211-218 | `EntityEquipment.ReadFrom` from a fresh count: int32 into `entity`, int16 into `slot`; `item` is neither read nor changed, as the source leaves its read commented out; the first failed read is the error and stops the rest, the count covers the bytes taken. |
| Packets.EntityEquipment.WriteTo | vendor/github.com/minero/minero/proto/packet/packet.go:219-228 | `EntityEquipment.WriteTo` from a fresh count: the id 0x05, then the fields; the first failed write is the error and stops the rest, the count covers the bytes written. |
| Packets.SpawnPosition.RoundTrip | vendor/github.com/minero/minero/proto/packet/packet.go:241-258 | `SpawnPosition` (0x06): `WriteTo` puts out the id and then bytes from which any receiver's `ReadFrom` gets the packet back. |
| Packets.SpawnPosition.Layout | vendor/github.com/minero/minero/proto/packet/packet.go:241-248 | The kinds `SpawnPosition.ReadFrom` reads, in order: int32, int32, int32. |
| Packets.SpawnPosition.Fields | vendor/github.com/minero/minero/proto/packet/packet.go:249-258 | The fields `SpawnPosition.WriteTo` writes after the id 0x06, in order: `x` as int32, `y` as int32, `z` as int32. |
| Packets.SpawnPosition.ReadFrom | vendor/github.com/minero/minero/proto/packet/packet.go:241-248 | `SpawnPosition.ReadFrom` from a fresh count: int32 into `x`, int32 into `y`, int32 into `z`; the first failed read is the error and stops the rest, the count covers the bytes taken. |
| Packets.SpawnPosition.WriteTo | vendor/github.com/minero/minero/proto/packet/packet.go:249-258 | `SpawnPosition.WriteTo` from a fresh count: the id 0x06, then the fields; the first failed write is the error and stops the rest, the count covers the bytes written. |
| Packets.EntityInteract.RoundTrip | vendor/github.com/minero/minero/proto/packet/packet.go:274-291 | `EntityInteract` (0x07): `WriteTo` puts out the id and then bytes from which any receiver's `ReadFrom` gets the packet back. |
| Packets.EntityInteract.Layout | vendor/github.com/minero/minero/proto/packet/packet.go:274-281 | The kinds `EntityInteract.ReadFrom` reads, in order: int32, int32, bool. |
| Packets.EntityInteract.Fields | vendor/github.com/minero/minero/proto/packet/packet.go:282-291 | The fields `EntityInteract.WriteTo` writes after the id 0x07, in order: `from` as int32, `to` as int32, `mouseButton` as a bool. |
| Packets.EntityInteract.ReadFrom | vendor/github.com/minero/minero/proto/packet/packet.go:274-281 | `EntityInteract.ReadFrom` from a fresh count: int32 into `from`, int32 into `to`, bool into `mouseButton`; the first failed read is the error and stops the rest, the count covers the bytes taken. |
| Packets.EntityInteract.WriteTo | vendor/github.com/minero/minero/proto/packet/packet.go:282-291 | `EntityInteract.WriteTo` from a fresh count: the id 0x07, then the fields; the first failed write is the error and stops the rest, the count covers the bytes written. |
| Packets.HealthUpdate.RoundTrip | vendor/github.com/minero/minero/proto/packet/packet.go:308-325 | `HealthUpdate` (0x08): `WriteTo` puts out the id and then bytes from which any receiver's `ReadFrom` gets the packet back. |
| Packets.HealthUpdate.Layout | vendor/github.com/minero/minero/proto/packet/packet.go:308-315 | The kinds `HealthUpdate.ReadFrom` reads, in order: int16, int16, float32. |
| Packets.HealthUpdate.Fields | vendor/github.com/minero/minero/proto/packet/packet.go:316-325 | The fields `HealthUpdate.WriteTo` writes after the id 0x08, in order: `health` as int16, `food` as int16, `saturation` as float32. |
| Packets.HealthUpdate.ReadFrom | vendor/github.com/minero/minero/proto/packet/packet.go:308-315 | `HealthUpdate.ReadFrom` from a fresh count: int16 into `health`, int16 into `food`, float32 into `saturation`; the first failed read is the error and stops the rest, the count covers the bytes taken. |
| Packets.HealthUpdate.WriteTo | vendor/github.com/minero/minero/proto/packet/packet.go:316-325 | `HealthUpdate.WriteTo` from a fresh count: the id 0x08, then the fields; the first failed write is the error and stops the rest, the count covers the bytes written. |
| Packets.Respawn.RoundTrip | vendor/github.com/minero/minero/proto/packet/packet.go:341-362 | `Respawn` (0x09): `WriteTo` puts out the id and then bytes from which any receiver's `ReadFrom` gets the packet back. |
| Packets.Respawn.Layout | vendor/github.com/minero/minero/proto/packet/packet.go:341-350 | The kinds `Respawn.ReadFrom` reads, in order: int32, int8, int8, int16, string. |
| Packets.Respawn.Fields | vendor/github.com/minero/minero/proto/packet/packet.go:351-362 | The fields `Respawn.WriteTo` writes after the id 0x09, in order: `dimension` as int32, `difficulty` as int8, `gameMode` as int8, `worldHeight` as int16, `levelType` as a string. |
| Packets.Respawn.ReadFrom | vendor/github.com/minero/minero/proto/packet/packet.go:341-350 | `Respawn.ReadFrom` from a fresh count: int32 into `dimension`, int8 into `difficulty`, int8 into `gameMode`, int16 into `worldHeight`, string into `levelType`; the first failed read is the error and stops the rest, the count covers the bytes taken. |
| Packets.Respawn.WriteTo | vendor/github.com/minero/minero/proto/packet/packet.go:351-362 | `Respawn.WriteTo` from a fresh count: the id 0x09, then the fields; the first failed write is the error and stops the rest, the count covers the bytes written. |
| Packets.Player.RoundTrip | vendor/github.com/minero/minero/proto/packet/packet.go:375-388 | `Player` (0x0A): `WriteTo` puts out the id and then bytes from which any receiver's `ReadFrom` gets the packet back. |
| Packets.Player.Layout | vendor/github.com/minero/minero/proto/packet/packet.go:375-380 | The kinds `Player.ReadFrom` reads, in order: bool. |
| Packets.Player.Fields | vendor/github.com/minero/minero/proto/packet/packet.go:381-388 | The fields `Player.WriteTo` writes after the id 0x0A, in order: `onGround` as a bool. |
| Packets.Player.ReadFrom | vendor/github.com/minero/minero/proto/packet/packet.go:375-380 | `Player.ReadFrom` from a fresh count: bool into `onGround`; the first failed read is the error and stops the rest, the count covers the bytes taken. |
| Packets.Player.WriteTo | vendor/github.com/minero/minero/proto/packet/packet.go:381-388 | `Player.WriteTo` from a fresh count: the id 0x0A, then the fields; the first failed write is the error and stops the rest, the count covers the bytes written. |
| Packets.PlayerPos.RoundTrip | vendor/github.com/minero/minero/proto/packet/packet.go:413-434 | `PlayerPos` (0x0B): `WriteTo` puts out the id and then bytes from which any receiver's `ReadFrom` gets the packet back. |
| Packets.PlayerPos.Layout | vendor/github.com/minero/minero/proto/packet/packet.go:413-422 | The kinds `PlayerPos.ReadFrom` reads, in order: float64, float64, float64, float64, bool. |
| Packets.PlayerPos.Fields | vendor/github.com/minero/minero/proto/packet/packet.go:423-434 | The fields `PlayerPos.WriteTo` writes after the id 0x0B, in order: `x` as float64, `y` as float64, `stance` as float64, `z` as float64, `onGround` as a bool. |
| Packets.PlayerPos.ReadFrom | vendor/github.com/minero/minero/proto/packet/packet.go:413-422 | `PlayerPos.ReadFrom` from a fresh count: float64 into `x`, float64 into `y`, float64 into `stance`, float64 into `z`, bool into `onGround`; the first failed read is the error and stops the rest, the count covers the bytes taken. |
| Packets.PlayerPos.WriteTo | vendor/github.com/minero/minero/proto/packet/packet.go:423-434 | `PlayerPos.WriteTo` from a fresh count: the id 0x0B, then the fields; the first failed write is the error and stops the rest, the count covers the bytes written. |
| Packets.PlayerLook.RoundTrip | vendor/github.com/minero/minero/proto/packet/packet.go:458-475 | `PlayerLook` (0x0C): `WriteTo` puts out the id and then bytes from which any receiver's `ReadFrom` gets the packet back. |
| Packets.PlayerLook.Layout | vendor/github.com/minero/minero/proto/packet/packet.go:458-465 | The kinds `PlayerLook.ReadFrom` reads, in order: float32, float32, bool. |
| Packets.PlayerLook.Fields | vendor/github.com/minero/minero/proto/packet/packet.go:466-475 | The fields `PlayerLook.WriteTo` writes after the id 0x0C, in order: `yaw` as float32, `pitch` as float32, `onGround` as a bool. |
| Packets.PlayerLook.ReadFrom | vendor/github.com/minero/minero/proto/packet/packet.go:458-465 | `PlayerLook.ReadFrom` from a fresh count: float32 into `yaw`, float32 into `pitch`, bool into `onGround`; the first failed read is the error and stops the rest, the count covers the bytes taken. |
| Packets.PlayerLook.WriteTo | vendor/github.com/minero/minero/proto/packet/packet.go:466-475 | `PlayerLook.WriteTo` from a fresh count: the id 0x0C, then the fields; the first failed write is the error and stops the rest, the count covers the bytes written. |
| Packets.PlayerPosLook.RoundTrip | vendor/github.com/minero/minero/proto/packet/packet.go:491-516 | `PlayerPosLook` (0x0D): `WriteTo` puts out the id and then bytes from which any receiver's `ReadFrom` gets the packet back, except that Y and Stance come back swapped: the write switches them and the read does not. |
| Packets.PlayerPosLook.Layout | vendor/github.com/minero/minero/proto/packet/packet.go:491-502 | The kinds `PlayerPosLook.ReadFrom` reads, in order: float64, float64, float64, float64, float32, float32, bool. |
| Packets.PlayerPosLook.Fields | vendor/github.com/minero/minero/proto/packet/packet.go:503-516 | The fields `PlayerPosLook.WriteTo` writes after the id 0x0D, in order: `x` as float64, `stance` as float64, `y` as float64, `z` as float64, `yaw` as float32, `pitch` as float32, `onGround` as a bool. |
| Packets.PlayerPosLook.ReadFrom | vendor/github.com/minero/minero/proto/packet/packet.go:491-502 | `PlayerPosLook.ReadFrom` from a fresh count: float64 into `x`, float64 into `y`, float64 into `stance`, float64 into `z`, float32 into `yaw`, float32 into `pitch`, bool into `onGround`; the first failed read is the error and stops the rest, the count covers the bytes taken. |
| Packets.PlayerPosLook.WriteTo | vendor/github.com/minero/minero/proto/packet/packet.go:503-516 | `PlayerPosLook.WriteTo` from a fresh count: the id 0x0D, then the fields; the first failed write is the error and stops the rest, the count covers the bytes written. |
| Packets.PlayerAction.RoundTrip | vendor/github.com/minero/minero/proto/packet/packet.go:541-562 | `PlayerAction` (0x0E): `WriteTo` puts out the id and then bytes from which any receiver's `ReadFrom` gets the packet back. |
| Packets.PlayerAction.Layout | vendor/github.com/minero/minero/proto/packet/packet.go:541-550 | The kinds `PlayerAction.ReadFrom` reads, in order: int8, int32, int8, int32, int8. |
| Packets.PlayerAction.Fields | vendor/github.com/minero/minero/proto/packet/packet.go:551-562 | The fields `PlayerAction.WriteTo` writes after the id 0x0E, in order: `action` as int8, `x` as int32, `y` as int8, `z` as int32, `face` as int8. |
| Packets.PlayerAction.ReadFrom | vendor/github.com/minero/minero/proto/packet/packet.go:541-550 | `PlayerAction.ReadFrom` from a fresh count: int8 into `action`, int32 into `x`, int8 into `y`, int32 into `z`, int8 into `face`; the first failed read is the error and stops the rest, the count covers the bytes taken. |
| Packets.PlayerAction.WriteTo | vendor/github.com/minero/minero/proto/packet/packet.go:551-562 | `PlayerAction.WriteTo` from a fresh count: the id 0x0E, then the fields; the first failed write is the error and stops the rest, the count covers the bytes written. |
| Packets.PlayerBlockPlace.RoundTrip | vendor/github.com/minero/minero/proto/packet/packet.go:587-614 | `PlayerBlockPlace` (0x0F): `WriteTo` puts out the id and then bytes from which any receiver's `ReadFrom` gets the packet back, except that an empty `HeldItem` slot comes back as `NewSlot`. |
| Packets.PlayerBlockPlace.Layout | vendor/github.com/minero/minero/proto/packet/packet.go:587-599 | The kinds `PlayerBlockPlace.ReadFrom` reads, in order: int32, int8, int32, int8, slot, int8, int8, int8. |
| Packets.PlayerBlockPlace.Fields | vendor/github.com/minero/minero/proto/packet/packet.go:600-614 | The fields `PlayerBlockPlace.WriteTo` writes after the id 0x0F, in order: `x` as int32, `y` converted to int8, `z` as int32, `direction` as int8, `heldItem` as a slot, `chX` as int8, `chY` as int8, `chZ` as int8. |
| Packets.PlayerBlockPlace.ReadFrom | vendor/github.com/minero/minero/proto/packet/packet.go:587-599 | `PlayerBlockPlace.ReadFrom` from a fresh count: int32 into `x`, int8 into `y`, int32 into `z`, int8 into `direction`, slot into `heldItem`, int8 into `chX`, int8 into `chY`, int8 into `chZ`; the first failed read is the error and stops the rest, the count covers the bytes taken. |
| Packets.PlayerBlockPlace.WriteTo | vendor/github.com/minero/minero/proto/packet/packet.go:600-614 | `PlayerBlockPlace.WriteTo` from a fresh count: the id 0x0F, then the fields; the first failed write is the error and stops the rest, the count covers the bytes written. |
| Packets.ItemHeldChange.RoundTrip | vendor/github.com/minero/minero/proto/packet/packet.go:623-636 | `ItemHeldChange` (0x10): `WriteTo` puts out the id and then bytes from which any receiver's `ReadFrom` gets the packet back. |
| Packets.ItemHeldChange.Layout | vendor/github.com/minero/minero/proto/packet/packet.go:623-628 | The kinds `ItemHeldChange.ReadFrom` reads, in order: int16. |
| Packets.ItemHeldChange.Fields | vendor/github.com/minero/minero/proto/packet/packet.go:629-636 | The fields `ItemHeldChange.WriteTo` writes after the id 0x10, in order: `slotId` as int16. |
| Packets.ItemHeldChange.ReadFrom | vendor/github.com/minero/minero/proto/packet/packet.go:623-628 | `ItemHeldChange.ReadFrom` from a fresh count: int16 into `slotId`; the first failed read is the error and stops the rest, the count covers the bytes taken. |
| Packets.ItemHeldChange.WriteTo | vendor/github.com/minero/minero/proto/packet/packet.go:629-636 | `ItemHeldChange.WriteTo` from a fresh count: the id 0x10, then the fields; the first failed write is the error and stops the rest, the count covers the bytes written. |
| Packets.BedUse.RoundTrip | vendor/github.com/minero/minero/proto/packet/packet.go:651-672 | `BedUse` (0x11): `WriteTo` puts out the id and then bytes from which any receiver's `ReadFrom` gets the packet back. The byte the write puts at a fixed zero is read and dropped. |
| Packets.BedUse.Layout | vendor/github.com/minero/minero/proto/packet/packet.go:651-660 | The kinds `BedUse.ReadFrom` reads, in order: int32, int8, int32, int8, int32. |
| Packets.BedUse.Fields | vendor/github.com/minero/minero/proto/packet/packet.go:661-672 | The fields `BedUse.WriteTo` writes after the id 0x11, in order: `entity` as int32, the constant 0 as int8, `x` as int32, `y` as int8, `z` as int32. |
| Packets.BedUse.ReadFrom | vendor/github.com/minero/minero/proto/packet/packet.go:651-660 | `BedUse.ReadFrom` from a fresh count: int32 into `entity`, int8, dropped, int32 into `x`, int8 into `y`, int32 into `z`; the first failed read is the error and stops the rest, the count covers the bytes taken. |
| Packets.BedUse.WriteTo | vendor/github.com/minero/minero/proto/packet/packet.go:661-672 | `BedUse.WriteTo` from a fresh count: the id 0x11, then the fields; the first failed write is the error and stops the rest, the count covers the bytes written. |
| Packets.Animation.RoundTrip | vendor/github.com/minero/minero/proto/packet/packet.go:682-697 | `Animation` (0x12): `WriteTo` puts out the id and then bytes from which any receiver's `ReadFrom` gets the packet back. |
| Packets.Animation.Layout | vendor/github.com/minero/minero/proto/packet/packet.go:682-688 | The kinds `Animation.ReadFrom` reads, in order: int32, int8. |
| Packets.Animation.Fields | vendor/github.com/minero/minero/proto/packet/packet.go:689-697 | The fields `Animation.WriteTo` writes after the id 0x12, in order: `entity` as int32, `animation` as int8. |
| Packets.Animation.ReadFrom | vendor/github.com/minero/minero/proto/packet/packet.go:682-688 | `Animation.ReadFrom` from a fresh count: int32 into `entity`, int8 into `animation`; the first failed read is the error and stops the rest, the count covers the bytes taken. |
| Packets.Animation.WriteTo | vendor/github.com/minero/minero/proto/packet/packet.go:689-697 | `Animation.WriteTo` from a fresh count: the id 0x12, then the fields; the first failed write is the error and stops the rest, the count covers the bytes written. |
| Packets.EntityAction.RoundTrip | vendor/github.com/minero/minero/proto/packet/packet.go:707-722 | `EntityAction` (0x13): `WriteTo` puts out the id and then bytes from which any receiver's `ReadFrom` gets the packet back. |
| Packets.EntityAction.Layout | vendor/github.com/minero/minero/proto/packet/packet.go:707-713 | The kinds `EntityAction.ReadFrom` reads, in order: int32, int8. |
| Packets.EntityAction.Fields | vendor/github.com/minero/minero/proto/packet/packet.go:714-722 | The fields `EntityAction.WriteTo` writes after the id 0x13, in order: `entity` as int32, `action` as int8. |
| Packets.EntityAction.ReadFrom | vendor/github.com/minero/minero/proto/packet/packet.go:707-713 | `EntityAction.ReadFrom` from a fresh count: int32 into `entity`, int8 into `action`; the first failed read is the error and stops the rest, the count covers the bytes taken. |
| Packets.EntityAction.WriteTo | vendor/github.com/minero/minero/proto/packet/packet.go:714-722 | `EntityAction.WriteTo` from a fresh count: the id 0x13, then the fields; the first failed write is the error and stops the rest, the count covers the bytes written. |
| Packets.EntityNamedSpawn.RoundTrip | vendor/github.com/minero/minero/proto/packet/packet.go:741-770 | `EntityNamedSpawn` (0x14): `WriteTo` puts out the id and then bytes from which any receiver's `ReadFrom` gets the packet back. |
| Packets.EntityNamedSpawn.Layout | vendor/github.com/minero/minero/proto/packet/packet.go:741-754 | The kinds `EntityNamedSpawn.ReadFrom` reads, in order: int32, string, int32, int32, int32, int8, int8, int16, metadata. |
| Packets.EntityNamedSpawn.Fields | vendor/github.com/minero/minero/proto/packet/packet.go:755-770 | The fields `EntityNamedSpawn.WriteTo` writes after the id 0x14, in order: `entity` as int32, `name` as a string, `x` as int32, `y` as int32, `z` as int32, `yaw` as int8, `pitch` as int8, `item` as int16, `metadata` as metadata. |
| Packets.EntityNamedSpawn.ReadFrom | vendor/github.com/minero/minero/proto/packet/packet.go:741-754 | `EntityNamedSpawn.ReadFrom` from a fresh count: int32 into `entity`, string into `name`, int32 into `x`, int32 into `y`, int32 into `z`, int8 into `yaw`, int8 into `pitch`, int16 into `item`, metadata into `metadata`; the first failed read is the error and stops the rest, the count covers the bytes taken. |
| Packets.EntityNamedSpawn.WriteTo | vendor/github.com/minero/minero/proto/packet/packet.go:755-770 | `EntityNamedSpawn.WriteTo` from a fresh count: the id 0x14, then the fields; the first failed write is the error and stops the rest, the count covers the bytes written. |
| Packets.ItemCollect.RoundTrip | vendor/github.com/minero/minero/proto/packet/packet.go:783-798 | `ItemCollect` (0x16): `WriteTo` puts out the id and then bytes from which any receiver's `ReadFrom` gets the packet back. |
| Packets.ItemCollect.Layout | vendor/github.com/minero/minero/proto/packet/packet.go:783-789 | The kinds `ItemCollect.ReadFrom` reads, in order: int32, int32. |
| Packets.ItemCollect.Fields | vendor/github.com/minero/minero/proto/packet/packet.go:790-798 | The fields `ItemCollect.WriteTo` writes after the id 0x16, in order: `whatId` as int32, `whoId` as int32. |
| Packets.ItemCollect.ReadFrom | vendor/github.com/minero/minero/proto/packet/packet.go:783-789 | `ItemCollect.ReadFrom` from a fresh count: int32 into `whatId`, int32 into `whoId`; the first failed read is the error and stops the rest, the count covers the bytes taken. |
| Packets.ItemCollect.WriteTo | vendor/github.com/minero/minero/proto/packet/packet.go:790-798 | `ItemCollect.WriteTo` from a fresh count: the id 0x16, then the fields; the first failed write is the error and stops the rest, the count covers the bytes written. |
| Packets.SpawnObjectVehicle.RoundTrip | vendor/github.com/minero/minero/proto/packet/packet.go:811-838 | `SpawnObjectVehicle` (0x17): `WriteTo` puts out the id and then bytes from which any receiver's `ReadFrom` gets the packet back, except that zero `ObjectData` comes back without speeds. |
| Packets.SpawnObjectVehicle.Layout | vendor/github.com/minero/minero/proto/packet/packet.go:811-823 | The kinds `SpawnObjectVehicle.ReadFrom` reads, in order: int32, int8, int32, int32, int32, int8, int8, object data. |
| Packets.SpawnObjectVehicle.Fields | vendor/github.com/minero/minero/proto/packet/packet.go:824-838 | The fields `SpawnObjectVehicle.WriteTo` writes after the id 0x17, in order: `entity` as int32, `typ` as int8, `x` as int32, `y` as int32, `z` as int32, `pitch` as int8, `yaw` as int8, `objectData` as object data. |
| Packets.SpawnObjectVehicle.ReadFrom | vendor/github.com/minero/minero/proto/packet/packet.go:811-823 | `SpawnObjectVehicle.ReadFrom` from a fresh count: int32 into `entity`, int8 into `typ`, int32 into `x`, int32 into `y`, int32 into `z`, int8 into `pitch`, int8 into `yaw`, object data into `objectData`; the first failed read is the error and stops the rest, the count covers the bytes taken. |
| Packets.SpawnObjectVehicle.WriteTo | vendor/github.com/minero/minero/proto/packet/packet.go:824-838 | `SpawnObjectVehicle.WriteTo` from a fresh count: the id 0x17, then the fields; the first failed write is the error and stops the rest, the count covers the bytes written. |
| Packets.SpawnMob.RoundTrip | vendor/github.com/minero/minero/proto/packet/packet.go:852-888 | `SpawnMob` (0x18): `WriteTo` puts out the id and then bytes from which any receiver's `ReadFrom` gets the packet back. |
| Packets.SpawnMob.Layout | vendor/github.com/minero/minero/proto/packet/packet.go:852-868 | The kinds `SpawnMob.ReadFrom` reads, in order: int32, int8, int32, int32, int32, int8, int8, int8, int16, int16, int16, metadata. |
| Packets.SpawnMob.Fields | vendor/github.com/minero/minero/proto/packet/packet.go:870-888 | The fields `SpawnMob.WriteTo` writes after the id 0x18, in order: `entity` as int32, `typ` as int8, `x` as int32, `y` as int32, `z` as int32, `pitch` as int8, `headPitch` as int8, `yaw` as int8, `velX` as int16, `velY` as int16, `velZ` as int16, `metadata` as metadata. |
| Packets.SpawnMob.ReadFrom | vendor/github.com/minero/minero/proto/packet/packet.go:852-868 | `SpawnMob.ReadFrom` from a fresh count: int32 into `entity`, int8 into `typ`, int32 into `x`, int32 into `y`, int32 into `z`, int8 into `pitch`, int8 into `headPitch`, int8 into `yaw`, int16 into `velX`, int16 into `velY`, int16 into `velZ`, metadata into `metadata`; the first failed read is the error and stops the rest, the count covers the bytes taken. |
| Packets.SpawnMob.WriteTo | vendor/github.com/minero/minero/proto/packet/packet.go:870-888 | `SpawnMob.WriteTo` from a fresh count: the id 0x18, then the fields; the first failed write is the error and stops the rest, the count covers the bytes written. |
| Packets.SpawnPainting.RoundTrip | vendor/github.com/minero/minero/proto/packet/packet.go:903-927 | `SpawnPainting` (0x19): `WriteTo` puts out the id and then bytes from which any receiver's `ReadFrom` gets the packet back. |
| Packets.SpawnPainting.Layout | vendor/github.com/minero/minero/proto/packet/packet.go:903-913 | The kinds `SpawnPainting.ReadFrom` reads, in order: int32, string, int32, int32, int32, int32. |
| Packets.SpawnPainting.Fields | vendor/github.com/minero/minero/proto/packet/packet.go:915-927 | The fields `SpawnPainting.WriteTo` writes after the id 0x19, in order: `entity` as int32, `title` as a string, `x` as int32, `y` as int32, `z` as int32, `direction` as int32. |
| Packets.SpawnPainting.ReadFrom | vendor/github.com/minero/minero/proto/packet/packet.go:903-913 | `SpawnPainting.ReadFrom` from a fresh count: int32 into `entity`, string into `title`, int32 into `x`, int32 into `y`, int32 into `z`, int32 into `direction`; the first failed read is the error and stops the rest, the count covers the bytes taken. |
| Packets.SpawnPainting.WriteTo | vendor/github.com/minero/minero/proto/packet/packet.go:915-927 | `SpawnPainting.WriteTo` from a fresh count: the id 0x19, then the fields; the first failed write is the error and stops the rest, the count covers the bytes written. |
| Packets.SpawnExperienceOrb.RoundTrip | vendor/github.com/minero/minero/proto/packet/packet.go:938-960 | `SpawnExperienceOrb` (0x1A): `WriteTo` puts out the id and then bytes from which any receiver's `ReadFrom` gets the packet back. |
| Packets.SpawnExperienceOrb.Layout | vendor/github.com/minero/minero/proto/packet/packet.go:938-947 | The kinds `SpawnExperienceOrb.ReadFrom` reads, in order: int32, int32, int32, int32, int16. |
| Packets.SpawnExperienceOrb.Fields | vendor/github.com/minero/minero/proto/packet/packet.go:949-960 | The fields `SpawnExperienceOrb.WriteTo` writes after the id 0x1A, in order: `entity` as int32, `x` as int32, `y` as int32, `z` as int32, `count` as int16. |
| Packets.SpawnExperienceOrb.ReadFrom | vendor/github.com/minero/minero/proto/packet/packet.go:938-947 | `SpawnExperienceOrb.ReadFrom` from a fresh count: int32 into `entity`, int32 into `x`, int32 into `y`, int32 into `z`, int16 into `count`; the first failed read is the error and stops the rest, the count covers the bytes taken. |
| Packets.SpawnExperienceOrb.WriteTo | vendor/github.com/minero/minero/proto/packet/packet.go:949-960 | `SpawnExperienceOrb.WriteTo` from a fresh count: the id 0x1A, then the fields; the first failed write is the error and stops the rest, the count covers the bytes written. |
| Packets.EntityVelocity.RoundTrip | vendor/github.com/minero/minero/proto/packet/packet.go:977-997 | `EntityVelocity` (0x1C): `WriteTo` puts out the id and then bytes from which any receiver's `ReadFrom` gets the packet back. |
| Packets.EntityVelocity.Layout | vendor/github.com/minero/minero/proto/packet/packet.go:977-985 | The kinds `EntityVelocity.ReadFrom` reads, in order: int32, int16, int16, int16. |
| Packets.EntityVelocity.Fields | vendor/github.com/minero/minero/proto/packet/packet.go:987-997 | The fields `EntityVelocity.WriteTo` writes after the id 0x1C, in order: `entity` as int32, `velX` as int16, `velY` as int16, `velZ` as int16. |
| Packets.EntityVelocity.ReadFrom | vendor/github.com/minero/minero/proto/packet/packet.go:977-985 | `EntityVelocity.ReadFrom` from a fresh count: int32 into `entity`, int16 into `velX`, int16 into `velY`, int16 into `velZ`; the first failed read is the error and stops the rest, the count covers the bytes taken. |
| Packets.EntityVelocity.WriteTo | vendor/github.com/minero/minero/proto/packet/packet.go:987-997 | `EntityVelocity.WriteTo` from a fresh count: the id 0x1C, then the fields; the first failed write is the error and stops the rest, the count covers the bytes written. |
| Packets.EntityDestroy.RoundTrip | vendor/github.com/minero/minero/proto/packet/packet.go:1007-1027 | `EntityDestroy` (0x1D): Up to 127 ids come back, after those the receiver already holds, and the count becomes their number. |
| Packets.EntityDestroy.Head | vendor/github.com/minero/minero/proto/packet/packet.go:1007-1015 | What `EntityDestroy.ReadFrom` reads first: the int8 count. |
| Packets.EntityDestroy.Run | vendor/github.com/minero/minero/proto/packet/packet.go:1007-1015 | The ids a count announces, an int32 each, none for a negative count. |
| Packets.EntityDestroy.Fields | vendor/github.com/minero/minero/proto/packet/packet.go:1017-1027 | The fields `EntityDestroy.WriteTo` writes after the id 0x1D: the number of ids converted to int8 (wrapping from 128), then each id as int32. |
| Packets.EntityDestroy.ReadFrom | vendor/github.com/minero/minero/proto/packet/packet.go:1007-1015 | `EntityDestroy.ReadFrom` from a fresh count: the int8 count into `count`, then that many int32 ids (none when it is negative) appended to the ids the receiver already holds; the first failed read is the error and stops the rest, the count covers the bytes taken. |
| Packets.EntityDestroy.WriteTo | vendor/github.com/minero/minero/proto/packet/packet.go:1017-1027 | `EntityDestroy.WriteTo` from a fresh count: the id 0x1D, then the fields; the first failed write is the error and stops the rest, the count covers the bytes written. |
| Packets.Entity.RoundTrip | vendor/github.com/minero/minero/proto/packet/packet.go:1041-1055 | `Entity` (0x1E): `WriteTo` puts out the id and then bytes from which any receiver's `ReadFrom` gets the packet back. |
| Packets.Entity.Layout | vendor/github.com/minero/minero/proto/packet/packet.go:1041-1046 | The kinds `Entity.ReadFrom` reads, in order: int32. |
| Packets.Entity.Fields | vendor/github.com/minero/minero/proto/packet/packet.go:1048-1055 | The fields `Entity.WriteTo` writes after the id 0x1E, in order: `entity` as int32. |
| Packets.Entity.ReadFrom | vendor/github.com/minero/minero/proto/packet/packet.go:1041-1046 | `Entity.ReadFrom` from a fresh count: int32 into `entity`; the first failed read is the error and stops the rest, the count covers the bytes taken. |
| Packets.Entity.WriteTo | vendor/github.com/minero/minero/proto/packet/packet.go:1048-1055 | `Entity.WriteTo` from a fresh count: the id 0x1E, then the fields; the first failed write is the error and stops the rest, the count covers the bytes written. |
| Packets.EntityRelMove.RoundTrip | vendor/github.com/minero/minero/proto/packet/packet.go:1068-1088 | `EntityRelMove` (0x1F): `WriteTo` puts out the id and then bytes from which any receiver's `ReadFrom` gets the packet back. |
| Packets.EntityRelMove.Layout | vendor/github.com/minero/minero/proto/packet/packet.go:1068-1076 | The kinds `EntityRelMove.ReadFrom` reads, in order: int32, int8, int8, int8. |
| Packets.EntityRelMove.Fields | vendor/github.com/minero/minero/proto/packet/packet.go:1078-1088 | The fields `EntityRelMove.WriteTo` writes after the id 0x1F, in order: `entity` as int32, `x` as int8, `y` as int8, `z` as int8. |
| Packets.EntityRelMove.ReadFrom | vendor/github.com/minero/minero/proto/packet/packet.go:1068-1076 | `EntityRelMove.ReadFrom` from a fresh count: int32 into `entity`, int8 into `x`, int8 into `y`, int8 into `z`; the first failed read is the error and stops the rest, the count covers the bytes taken. |
| Packets.EntityRelMove.WriteTo | vendor/github.com/minero/minero/proto/packet/packet.go:1078-1088 | `EntityRelMove.WriteTo` from a fresh count: the id 0x1F, then the fields; the first failed write is the error and stops the rest, the count covers the bytes written. |
| Packets.EntityLook.RoundTrip | vendor/github.com/minero/minero/proto/packet/packet.go:1101-1119 | `EntityLook` (0x20): `WriteTo` puts out the id and then bytes from which any receiver's `ReadFrom` gets the packet back. |
| Packets.EntityLook.Layout | vendor/github.com/minero/minero/proto/packet/packet.go:1101-1108 | The kinds `EntityLook.ReadFrom` reads, in order: int32, int8, int8. |
| Packets.EntityLook.Fields | vendor/github.com/minero/minero/proto/packet/packet.go:1110-1119 | The fields `EntityLook.WriteTo` writes after the id 0x20, in order: `entity` as int32, `yaw` as int8, `pitch` as int8. |
| Packets.EntityLook.ReadFrom | vendor/github.com/minero/minero/proto/packet/packet.go:1101-1108 | `EntityLook.ReadFrom` from a fresh count: int32 into `entity`, int8 into `yaw`, int8 into `pitch`; the first failed read is the error and stops the rest, the count covers the bytes taken. |
| Packets.EntityLook.WriteTo | vendor/github.com/minero/minero/proto/packet/packet.go:1110-1119 | `EntityLook.WriteTo` from a fresh count: the id 0x20, then the fields; the first failed write is the error and stops the rest, the count covers the bytes written. |
| Packets.EntityLookRelMove.RoundTrip | vendor/github.com/minero/minero/proto/packet/packet.go:1133-1157 | `EntityLookRelMove` (0x21): `WriteTo` puts out the id and then bytes from which any receiver's `ReadFrom` gets the packet back. |
| Packets.EntityLookRelMove.Layout | vendor/github.com/minero/minero/proto/packet/packet.go:1133-1143 | The kinds `EntityLookRelMove.ReadFrom` reads, in order: int32, int8, int8, int8, int8, int8. |
| Packets.EntityLookRelMove.Fields | vendor/github.com/minero/minero/proto/packet/packet.go:1145-1157 | The fields `EntityLookRelMove.WriteTo` writes after the id 0x21, in order: `entity` as int32, `x` as int8, `y` as int8, `z` as int8, `yaw` as int8, `pitch` as int8. |
| Packets.EntityLookRelMove.ReadFrom | vendor/github.com/minero/minero/proto/packet/packet.go:1133-1143 | `EntityLookRelMove.ReadFrom` from a fresh count: int32 into `entity`, int8 into `x`, int8 into `y`, int8 into `z`, int8 into `yaw`, int8 into `pitch`; the first failed read is the error and stops the rest, the count covers the bytes taken. |
| Packets.EntityLookRelMove.WriteTo | vendor/github.com/minero/minero/proto/packet/packet.go:1145-1157 | `EntityLookRelMove.WriteTo` from a fresh count: the id 0x21, then the fields; the first failed write is the error and stops the rest, the count covers the bytes written. |
| Packets.EntityTeleport.RoundTrip | vendor/github.com/minero/minero/proto/packet/packet.go:1171-1195 | `EntityTeleport` (0x22): `WriteTo` puts out the id and then bytes from which any receiver's `ReadFrom` gets the packet back. |
| Packets.EntityTeleport.Layout | vendor/github.com/minero/minero/proto/packet/packet.go:1171-1181 | The kinds `EntityTeleport.ReadFrom` reads, in order: int32, int32, int32, int32, int8, int8. |
| Packets.EntityTeleport.Fields | vendor/github.com/minero/minero/proto/packet/packet.go:1183-1195 | The fields `EntityTeleport.WriteTo` writes after the id 0x22, in order: `entity` as int32, `x` as int32, `y` as int32, `z` as int32, `yaw` as int8, `pitch` as int8. |
| Packets.EntityTeleport.ReadFrom | vendor/github.com/minero/minero/proto/packet/packet.go:1171-1181 | `EntityTeleport.ReadFrom` from a fresh count: int32 into `entity`, int32 into `x`, int32 into `y`, int32 into `z`, int8 into `yaw`, int8 into `pitch`; the first failed read is the error and stops the rest, the count covers the bytes taken. |
| Packets.EntityTeleport.WriteTo | vendor/github.com/minero/minero/proto/packet/packet.go:1183-1195 | `EntityTeleport.WriteTo` from a fresh count: the id 0x22, then the fields; the first failed write is the error and stops the rest, the count covers the bytes written. |
| Packets.EntityHeadLook.RoundTrip | vendor/github.com/minero/minero/proto/packet/packet.go:1205-1221 | `EntityHeadLook` (0x23): `WriteTo` puts out the id and then bytes from which any receiver's `ReadFrom` gets the packet back. |
| Packets.EntityHeadLook.Layout | vendor/github.com/minero/minero/proto/packet/packet.go:1205-1211 | The kinds `EntityHeadLook.ReadFrom` reads, in order: int32, int8. |
| Packets.EntityHeadLook.Fields | vendor/github.com/minero/minero/proto/packet/packet.go:1213-1221 | The fields `EntityHeadLook.WriteTo` writes after the id 0x23, in order: `entity` as int32, `headYaw` as int8. |
| Packets.EntityHeadLook.ReadFrom | vendor/github.com/minero/minero/proto/packet/packet.go:1205-1211 | `EntityHeadLook.ReadFrom` from a fresh count: int32 into `entity`, int8 into `headYaw`; the first failed read is the error and stops the rest, the count covers the bytes taken. |
| Packets.EntityHeadLook.WriteTo | vendor/github.com/minero/minero/proto/packet/packet.go:1213-1221 | `EntityHeadLook.WriteTo` from a fresh count: the id 0x23, then the fields; the first failed write is the error and stops the rest, the count covers the bytes written. |
| Packets.EntityStatus.RoundTrip | vendor/github.com/minero/minero/proto/packet/packet.go:1231-1247 | `EntityStatus` (0x26): `WriteTo` puts out the id and then bytes from which any receiver's `ReadFrom` gets the packet back. |
| Packets.EntityStatus.Layout | vendor/github.com/minero/minero/proto/packet/packet.go:1231-1237 | The kinds `EntityStatus.ReadFrom` reads, in order: int32, int8. |
| Packets.EntityStatus.Fields | vendor/github.com/minero/minero/proto/packet/packet.go:1239-1247 | The fields `EntityStatus.WriteTo` writes after the id 0x26, in order: `entity` as int32, `status` as int8. |
| Packets.EntityStatus.ReadFrom | vendor/github.com/minero/minero/proto/packet/packet.go:1231-1237 | `EntityStatus.ReadFrom` from a fresh count: int32 into `entity`, int8 into `status`; the first failed read is the error and stops the rest, the count covers the bytes taken. |
| Packets.EntityStatus.WriteTo | vendor/github.com/minero/minero/proto/packet/packet.go:1239-1247 | `EntityStatus.WriteTo` from a fresh count: the id 0x26, then the fields; the first failed write is the error and stops the rest, the count covers the bytes written. |
| Packets.EntityAttach.RoundTrip | vendor/github.com/minero/minero/proto/packet/packet.go:1260-1276 | `EntityAttach` (0x27): `WriteTo` puts out the id and then bytes from which any receiver's `ReadFrom` gets the packet back. |
| Packets.EntityAttach.Layout | vendor/github.com/minero/minero/proto/packet/packet.go:1260-1266 | The kinds `EntityAttach.ReadFrom` reads, in order: int32, int32. |
| Packets.EntityAttach.Fields | vendor/github.com/minero/minero/proto/packet/packet.go:1268-1276 | The fields `EntityAttach.WriteTo` writes after the id 0x27, in order: `entity` as int32, `vehicleId` as int32. |
| Packets.EntityAttach.ReadFrom | vendor/github.com/minero/minero/proto/packet/packet.go:1260-1266 | `EntityAttach.ReadFrom` from a fresh count: int32 into `entity`, int32 into `vehicleId`; the first failed read is the error and stops the rest, the count covers the bytes taken. |
| Packets.EntityAttach.WriteTo | vendor/github.com/minero/minero/proto/packet/packet.go:1268-1276 | `EntityAttach.WriteTo` from a fresh count: the id 0x27, then the fields; the first failed write is the error and stops the rest, the count covers the bytes written. |
| Packets.EntityMetadata.RoundTrip | vendor/github.com/minero/minero/proto/packet/packet.go:1286-1302 | `EntityMetadata` (0x28): `WriteTo` puts out the id and then bytes from which any receiver's `ReadFrom` gets the packet back. |
| Packets.EntityMetadata.Layout | vendor/github.com/minero/minero/proto/packet/packet.go:1286-1292 | The kinds `EntityMetadata.ReadFrom` reads, in order: int32, metadata. |
| Packets.EntityMetadata.Fields | vendor/github.com/minero/minero/proto/packet/packet.go:1294-1302 | The fields `EntityMetadata.WriteTo` writes after the id 0x28, in order: `entity` as int32, `meta` as metadata. |
| Packets.EntityMetadata.ReadFrom | vendor/github.com/minero/minero/proto/packet/packet.go:1286-1292 | `EntityMetadata.ReadFrom` from a fresh count: int32 into `entity`, metadata into `meta`; the first failed read is the error and stops the rest, the count covers the bytes taken. |
| Packets.EntityMetadata.WriteTo | vendor/github.com/minero/minero/proto/packet/packet.go:1294-1302 | `EntityMetadata.WriteTo` from a fresh count: the id 0x28, then the fields; the first failed write is the error and stops the rest, the count covers the bytes written. |
| Packets.EntityEffect.RoundTrip | vendor/github.com/minero/minero/proto/packet/packet.go:1314-1334 | `EntityEffect` (0x29): `WriteTo` puts out the id and then bytes from which any receiver's `ReadFrom` gets the packet back. |
| Packets.EntityEffect.Layout | vendor/github.com/minero/minero/proto/packet/packet.go:1314-1322 | The kinds `EntityEffect.ReadFrom` reads, in order: int32, int8, int8, int16. |
| Packets.EntityEffect.Fields | vendor/github.com/minero/minero/proto/packet/packet.go:1324-1334 | The fields `EntityEffect.WriteTo` writes after the id 0x29, in order: `entity` as int32, `effect` as int8, `amplifier` as int8, `duration` as int16. |
| Packets.EntityEffect.ReadFrom | vendor/github.com/minero/minero/proto/packet/packet.go:1314-1322 | `EntityEffect.ReadFrom` from a fresh count: int32 into `entity`, int8 into `effect`, int8 into `amplifier`, int16 into `duration`; the first failed read is the error and stops the rest, the count covers the bytes taken. |
| Packets.EntityEffect.WriteTo | vendor/github.com/minero/minero/proto/packet/packet.go:1324-1334 | `EntityEffect.WriteTo` from a fresh count: the id 0x29, then the fields; the first failed write is the error and stops the rest, the count covers the bytes written. |
| Packets.EntityEffectRemove.RoundTrip | vendor/github.com/minero/minero/proto/packet/packet.go:1344-1360 | `EntityEffectRemove` (0x2A): `WriteTo` puts out the id and then bytes from which any receiver's `ReadFrom` gets the packet back. |
| Packets.EntityEffectRemove.Layout | vendor/github.com/minero/minero/proto/packet/packet.go:1344-1350 | The kinds `EntityEffectRemove.ReadFrom` reads, in order: int32, int8. |
| Packets.EntityEffectRemove.Fields | vendor/github.com/minero/minero/proto/packet/packet.go:1352-1360 | The fields `EntityEffectRemove.WriteTo` writes after the id 0x2A, in order: `entity` as int32, `effect` as int8. |
| Packets.EntityEffectRemove.ReadFrom | vendor/github.com/minero/minero/proto/packet/packet.go:1344-1350 | `EntityEffectRemove.ReadFrom` from a fresh count: int32 into `entity`, int8 into `effect`; the first failed read is the error and stops the rest, the count covers the bytes taken. |
| Packets.EntityEffectRemove.WriteTo | vendor/github.com/minero/minero/proto/packet/packet.go:1352-1360 | `EntityEffectRemove.WriteTo` from a fresh count: the id 0x2A, then the fields; the first failed write is the error and stops the rest, the count covers the bytes written. |
| Packets.SetExperience.RoundTrip | vendor/github.com/minero/minero/proto/packet/packet.go:1371-1389 | `SetExperience` (0x2B): `WriteTo` puts out the id and then bytes from which any receiver's `ReadFrom` gets the packet back. |
| Packets.SetExperience.Layout | vendor/github.com/minero/minero/proto/packet/packet.go:1371-1378 | The kinds `SetExperience.ReadFrom` reads, in order: float32, int16, int16. |
| Packets.SetExperience.Fields | vendor/github.com/minero/minero/proto/packet/packet.go:1380-1389 | The fields `SetExperience.WriteTo` writes after the id 0x2B, in order: `xp` as float32, `level` as int16, `totalXp` as int16. |
| Packets.SetExperience.ReadFrom | vendor/github.com/minero/minero/proto/packet/packet.go:1371-1378 | `SetExperience.ReadFrom` from a fresh count: float32 into `xp`, int16 into `level`, int16 into `totalXp`; the first failed read is the error and stops the rest, the count covers the bytes taken. |
| Packets.SetExperience.WriteTo | vendor/github.com/minero/minero/proto/packet/packet.go:1380-1389 | `SetExperience.WriteTo` from a fresh count: the id 0x2B, then the fields; the first failed write is the error and stops the rest, the count covers the bytes written. |
| Packets.ChunkData.RoundTrip | vendor/github.com/minero/minero/proto/packet/packet.go:1403-1444 | `ChunkData` (0x33): `WriteTo` puts out the id and then bytes from which any receiver's `ReadFrom` gets the packet back. |
| Packets.ChunkData.Layout | vendor/github.com/minero/minero/proto/packet/packet.go:1403-1420 | The kinds `ChunkData.ReadFrom` reads, in order: int32, int32, bool, int16, int16, byte array with an int32 length. |
| Packets.ChunkData.Fields | vendor/github.com/minero/minero/proto/packet/packet.go:1422-1444 | The fields `ChunkData.WriteTo` writes after the id 0x33, in order: `x` as int32, `z` as int32, `allColSections` as a bool, `primary` converted to int16, `add` converted to int16, `chunkData` with an int32 length. |
| Packets.ChunkData.ReadFrom | vendor/github.com/minero/minero/proto/packet/packet.go:1403-1420 | `ChunkData.ReadFrom` from a fresh count: int32 into `x`, int32 into `z`, bool into `allColSections`, int16 into `primary`, int16 into `add`, byte array with an int32 length into `chunkData`; the first failed read is the error and stops the rest, the count covers the bytes taken. |
| Packets.ChunkData.WriteTo | vendor/github.com/minero/minero/proto/packet/packet.go:1422-1444 | `ChunkData.WriteTo` from a fresh count: the id 0x33, then the fields; the first failed write is the error and stops the rest, the count covers the bytes written. |
| Packets.BlockChangeMulti.RoundTrip | vendor/github.com/minero/minero/proto/packet/packet.go:1456-1483 | `BlockChangeMulti` (0x34): A packet whose count is its number of records reads back as itself. |
| Packets.BlockChangeMulti.Head | vendor/github.com/minero/minero/proto/packet/packet.go:1456-1468 | What `BlockChangeMulti.ReadFrom` reads first: int32, int32, int16, int32. |
| Packets.BlockChangeMulti.Fields | vendor/github.com/minero/minero/proto/packet/packet.go:1470-1483 | The fields `BlockChangeMulti.WriteTo` writes after the id 0x34: `x` and `z` as int32, `count` as int16, `length` as int32, then every record of `blocks` as int32, however many `count` says. |
| Packets.BlockChangeMulti.ReadFrom | vendor/github.com/minero/minero/proto/packet/packet.go:1456-1468 | `BlockChangeMulti.ReadFrom` from a fresh count: the header into `x`, `z`, `count`, `length`; a negative count is the `make` panic with the receiver's records kept; otherwise `count` int32 records replace them; the first failed read is the error and stops the rest, the count covers the bytes taken. |
| Packets.BlockChangeMulti.WriteTo | vendor/github.com/minero/minero/proto/packet/packet.go:1470-1483 | `BlockChangeMulti.WriteTo` from a fresh count: the id 0x34, then the fields; the first failed write is the error and stops the rest, the count covers the bytes written. |
| Packets.BlockChange.RoundTrip | vendor/github.com/minero/minero/proto/packet/packet.go:1496-1518 | `BlockChange` (0x35): `WriteTo` puts out the id and then bytes from which any receiver's `ReadFrom` gets the packet back. |
| Packets.BlockChange.Layout | vendor/github.com/minero/minero/proto/packet/packet.go:1496-1505 | The kinds `BlockChange.ReadFrom` reads, in order: int32, int8, int32, int16, int8. |
| Packets.BlockChange.Fields | vendor/github.com/minero/minero/proto/packet/packet.go:1507-1518 | The fields `BlockChange.WriteTo` writes after the id 0x35, in order: `x` as int32, `y` converted to int8, `z` as int32, `blockType` as int16, `blockMeta` as int8. |
| Packets.BlockChange.ReadFrom | vendor/github.com/minero/minero/proto/packet/packet.go:1496-1505 | `BlockChange.ReadFrom` from a fresh count: int32 into `x`, int8 into `y`, int32 into `z`, int16 into `blockType`, int8 into `blockMeta`; the first failed read is the error and stops the rest, the count covers the bytes taken. |
| Packets.BlockChange.WriteTo | vendor/github.com/minero/minero/proto/packet/packet.go:1507-1518 | `BlockChange.WriteTo` from a fresh count: the id 0x35, then the fields; the first failed write is the error and stops the rest, the count covers the bytes written. |
| Packets.BlockAction.RoundTrip | vendor/github.com/minero/minero/proto/packet/packet.go:1537-1561 | `BlockAction` (0x36): `WriteTo` puts out the id and then bytes from which any receiver's `ReadFrom` gets the packet back. |
| Packets.BlockAction.Layout | vendor/github.com/minero/minero/proto/packet/packet.go:1537-1547 | The kinds `BlockAction.ReadFrom` reads, in order: int32, int16, int32, int8, int8, int16. |
| Packets.BlockAction.Fields | vendor/github.com/minero/minero/proto/packet/packet.go:1549-1561 | The fields `BlockAction.WriteTo` writes after the id 0x36, in order: `x` as int32, `y` as int16, `z` as int32, `byte1` as int8, `byte2` as int8, `blockId` as int16. |
| Packets.BlockAction.ReadFrom | vendor/github.com/minero/minero/proto/packet/packet.go:1537-1547 | `BlockAction.ReadFrom` from a fresh count: int32 into `x`, int16 into `y`, int32 into `z`, int8 into `byte1`, int8 into `byte2`, int16 into `blockId`; the first failed read is the error and stops the rest, the count covers the bytes taken. |
| Packets.BlockAction.WriteTo | vendor/github.com/minero/minero/proto/packet/packet.go:1549-1561 | `BlockAction.WriteTo` from a fresh count: the id 0x36, then the fields; the first failed write is the error and stops the rest, the count covers the bytes written. |
| Packets.BlockBreakAnimation.RoundTrip | vendor/github.com/minero/minero/proto/packet/packet.go:1572-1594 | `BlockBreakAnimation` (0x37): `WriteTo` puts out the id and then bytes from which any receiver's `ReadFrom` gets the packet back. |
| Packets.BlockBreakAnimation.Layout | vendor/github.com/minero/minero/proto/packet/packet.go:1572-1581 | The kinds `BlockBreakAnimation.ReadFrom` reads, in order: int32, int32, int32, int32, int8. |
| Packets.BlockBreakAnimation.Fields | vendor/github.com/minero/minero/proto/packet/packet.go:1583-1594 | The fields `BlockBreakAnimation.WriteTo` writes after the id 0x37, in order: `entity` as int32, `x` as int32, `y` as int32, `z` as int32, `damage` as int8. |
| Packets.BlockBreakAnimation.ReadFrom | vendor/github.com/minero/minero/proto/packet/packet.go:1572-1581 | `BlockBreakAnimation.ReadFrom` from a fresh count: int32 into `entity`, int32 into `x`, int32 into `y`, int32 into `z`, int8 into `damage`; the first failed read is the error and stops the rest, the count covers the bytes taken. |
| Packets.BlockBreakAnimation.WriteTo | vendor/github.com/minero/minero/proto/packet/packet.go:1583-1594 | `BlockBreakAnimation.WriteTo` from a fresh count: the id 0x37, then the fields; the first failed write is the error and stops the rest, the count covers the bytes written. |
| Packets.MapChunkBulk.RoundTrip | vendor/github.com/minero/minero/proto/packet/packet.go:1613-1646 | `MapChunkBulk` (0x38): Fewer than 0x8000 metas and 0x8000_0000 data bytes read back as themselves. |
| Packets.MapChunkBulk.Head | vendor/github.com/minero/minero/proto/packet/packet.go:1613-1628 | What `MapChunkBulk.ReadFrom` reads first: the int16 meta count, the int32 data length and the skylight bool. |
| Packets.MapChunkBulk.Fields | vendor/github.com/minero/minero/proto/packet/packet.go:1630-1646 | The fields `MapChunkBulk.WriteTo` writes after the id 0x38: the number of metas as int16 and of data bytes as int32 (both converted, wrapping), `skylightSent` as bool, the data bytes with no prefix, then each meta's x and z as int32 and primary and add masks as int16. |
| Packets.MapChunkBulk.ReadFrom | vendor/github.com/minero/minero/proto/packet/packet.go:1613-1628 | The corrected read: the header, `Length` data bytes (none for a length of zero or less), then a slice of `Count` metas, a negative count being the `make` panic; the first failed read is the error and stops the rest, the count covers the bytes taken. |
| Packets.MapChunkBulk.ReadFromAsWritten | vendor/github.com/minero/minero/proto/packet/packet.go:1613-1628 | The read as written: the same header and data, but the meta slice is made with `Length` entries. A negative length panics, a count up to the length leaves zero metas after those read, a count past it panics on the first index past the slice; the first failed read is the error and stops the rest, the count covers the bytes taken. |
| Packets.MapChunkBulk.WriteTo | vendor/github.com/minero/minero/proto/packet/packet.go:1630-1646 | `MapChunkBulk.WriteTo` from a fresh count: the id 0x38, then the fields; the first failed write is the error and stops the rest, the count covers the bytes written. |
| Packets.Explosion.RoundTrip | vendor/github.com/minero/minero/proto/packet/packet.go:1659-1700 | `Explosion` (0x3C): A packet whose count is its number of records reads back as itself. |
| Packets.Explosion.Head | vendor/github.com/minero/minero/proto/packet/packet.go:1659-1679 | What `Explosion.ReadFrom` reads first: three float64 coordinates, the float32 radius and the int32 record count. |
| Packets.Explosion.Run | vendor/github.com/minero/minero/proto/packet/packet.go:1659-1679 | What follows the head: three int8 offsets per announced record, then the player's three float32 motion values. |
| Packets.Explosion.Fields | vendor/github.com/minero/minero/proto/packet/packet.go:1681-1700 | The fields `Explosion.WriteTo` writes after the id 0x3C: `x`, `y`, `z` as float64, `radius` as float32, `count` as int32, three int8 offsets per record of `blocks` however many `count` says, then `playerX`, `playerY`, `playerZ` as float32. |
| Packets.Explosion.ReadFrom | vendor/github.com/minero/minero/proto/packet/packet.go:1659-1679 | `Explosion.ReadFrom` from a fresh count: the head; a negative count is the `make` panic with the rest of the receiver kept; otherwise `count` records and the motion replace the receiver's; the first failed read is the error and stops the rest, the count covers the bytes taken. |
| Packets.Explosion.WriteTo | vendor/github.com/minero/minero/proto/packet/packet.go:1681-1700 | `Explosion.WriteTo` from a fresh count: the id 0x3C, then the fields; the first failed write is the error and stops the rest, the count covers the bytes written. |
| Packets.SoundEffect.RoundTrip | vendor/github.com/minero/minero/proto/packet/packet.go:1717-1741 | `SoundEffect` (0x3D): `WriteTo` puts out the id and then bytes from which any receiver's `ReadFrom` gets the packet back. |
| Packets.SoundEffect.Layout | vendor/github.com/minero/minero/proto/packet/packet.go:1717-1727 | The kinds `SoundEffect.ReadFrom` reads, in order: int32, int32, int8, int32, int32, bool. |
| Packets.SoundEffect.Fields | vendor/github.com/minero/minero/proto/packet/packet.go:1729-1741 | The fields `SoundEffect.WriteTo` writes after the id 0x3D, in order: `effectId` as int32, `x` as int32, `y` as int8, `z` as int32, `data` as int32, `disableRelVolume` as a bool. |
| Packets.SoundEffect.ReadFrom | vendor/github.com/minero/minero/proto/packet/packet.go:1717-1727 | `SoundEffect.ReadFrom` from a fresh count: int32 into `effectId`, int32 into `x`, int8 into `y`, int32 into `z`, int32 into `data`, bool into `disableRelVolume`; the first failed read is the error and stops the rest, the count covers the bytes taken. |
| Packets.SoundEffect.WriteTo | vendor/github.com/minero/minero/proto/packet/packet.go:1729-1741 | `SoundEffect.WriteTo` from a fresh count: the id 0x3D, then the fields; the first failed write is the error and stops the rest, the count covers the bytes written. |
| Packets.SoundEffectNamed.RoundTrip | vendor/github.com/minero/minero/proto/packet/packet.go:1753-1777 | `SoundEffectNamed` (0x3E): `WriteTo` puts out the id and then bytes from which any receiver's `ReadFrom` gets the packet back. |
| Packets.SoundEffectNamed.Layout | vendor/github.com/minero/minero/proto/packet/packet.go:1753-1763 | The kinds `SoundEffectNamed.ReadFrom` reads, in order: string, int32, int32, int32, float32, int8. |
| Packets.SoundEffectNamed.Fields | vendor/github.com/minero/minero/proto/packet/packet.go:1765-1777 | The fields `SoundEffectNamed.WriteTo` writes after the id 0x3E, in order: `name` as a string, `x` as int32, `y` as int32, `z` as int32, `volume` as float32, `pitch` as int8. |
| Packets.SoundEffectNamed.ReadFrom | vendor/github.com/minero/minero/proto/packet/packet.go:1753-1763 | `SoundEffectNamed.ReadFrom` from a fresh count: string into `name`, int32 into `x`, int32 into `y`, int32 into `z`, float32 into `volume`, int8 into `pitch`; the first failed read is the error and stops the rest, the count covers the bytes taken. |
| Packets.SoundEffectNamed.WriteTo | vendor/github.com/minero/minero/proto/packet/packet.go:1765-1777 | `SoundEffectNamed.WriteTo` from a fresh count: the id 0x3E, then the fields; the first failed write is the error and stops the rest, the count covers the bytes written. |
| Packets.Particle.RoundTrip | vendor/github.com/minero/minero/proto/packet/packet.go:1790-1820 | `Particle` (0x3F): `WriteTo` puts out the id and then bytes from which any receiver's `ReadFrom` gets the packet back. |
| Packets.Particle.Layout | vendor/github.com/minero/minero/proto/packet/packet.go:1790-1803 | The kinds `Particle.ReadFrom` reads, in order: string, float32, float32, float32, float32, float32, float32, float32, int32. |
| Packets.Particle.Fields | vendor/github.com/minero/minero/proto/packet/packet.go:1805-1820 | The fields `Particle.WriteTo` writes after the id 0x3F, in order: `name` as a string, `x` as float32, `y` as float32, `z` as float32, `offsetX` as float32, `offsetY` as float32, `offsetZ` as float32, `speed` as float32, `number` as int32. |
| Packets.Particle.ReadFrom | vendor/github.com/minero/minero/proto/packet/packet.go:1790-1803 | `Particle.ReadFrom` from a fresh count: string into `name`, float32 into `x`, float32 into `y`, float32 into `z`, float32 into `offsetX`, float32 into `offsetY`, float32 into `offsetZ`, float32 into `speed`, int32 into `number`; the first failed read is the error and stops the rest, the count covers the bytes taken. |
| Packets.Particle.WriteTo | vendor/github.com/minero/minero/proto/packet/packet.go:1805-1820 | `Particle.WriteTo` from a fresh count: the id 0x3F, then the fields; the first failed write is the error and stops the rest, the count covers the bytes written. |
| Packets.GameStateChange.RoundTrip | vendor/github.com/minero/minero/proto/packet/packet.go:1830-1846 | `GameStateChange` (0x46): `WriteTo` puts out the id and then bytes from which any receiver's `ReadFrom` gets the packet back. |
| Packets.GameStateChange.Layout | vendor/github.com/minero/minero/proto/packet/packet.go:1830-1836 | The kinds `GameStateChange.ReadFrom` reads, in order: int8, int8. |
| Packets.GameStateChange.Fields | vendor/github.com/minero/minero/proto/packet/packet.go:1838-1846 | The fields `GameStateChange.WriteTo` writes after the id 0x46, in order: `reason` as int8, `gameMode` as int8. |
| Packets.GameStateChange.ReadFrom | vendor/github.com/minero/minero/proto/packet/packet.go:1830-1836 | `GameStateChange.ReadFrom` from a fresh count: int8 into `reason`, int8 into `gameMode`; the first failed read is the error and stops the rest, the count covers the bytes taken. |
| Packets.GameStateChange.WriteTo | vendor/github.com/minero/minero/proto/packet/packet.go:1838-1846 | `GameStateChange.WriteTo` from a fresh count: the id 0x46, then the fields; the first failed write is the error and stops the rest, the count covers the bytes written. |
| Packets.EntityGlobalSpawn.RoundTrip | vendor/github.com/minero/minero/proto/packet/packet.go:1857-1879 | `EntityGlobalSpawn` (0x47): `WriteTo` puts out the id and then bytes from which any receiver's `ReadFrom` gets the packet back. |
| Packets.EntityGlobalSpawn.Layout | vendor/github.com/minero/minero/proto/packet/packet.go:1857-1866 | The kinds `EntityGlobalSpawn.ReadFrom` reads, in order: int32, int8, int32, int32, int32. |
| Packets.EntityGlobalSpawn.Fields | vendor/github.com/minero/minero/proto/packet/packet.go:1868-1879 | The fields `EntityGlobalSpawn.WriteTo` writes after the id 0x47, in order: `entity` as int32, `typ` as int8, `x` as int32, `y` as int32, `z` as int32. |
| Packets.EntityGlobalSpawn.ReadFrom | vendor/github.com/minero/minero/proto/packet/packet.go:1857-1866 | `EntityGlobalSpawn.ReadFrom` from a fresh count: int32 into `entity`, int8 into `typ`, int32 into `x`, int32 into `y`, int32 into `z`; the first failed read is the error and stops the rest, the count covers the bytes taken. |
| Packets.EntityGlobalSpawn.WriteTo | vendor/github.com/minero/minero/proto/packet/packet.go:1868-1879 | `EntityGlobalSpawn.WriteTo` from a fresh count: the id 0x47, then the fields; the first failed write is the error and stops the rest, the count covers the bytes written. |
| Packets.WindowOpen.RoundTrip | vendor/github.com/minero/minero/proto/packet/packet.go:1896-1918 | `WindowOpen` (0x64): `WriteTo` puts out the id and then bytes from which any receiver's `ReadFrom` gets the packet back. |
| Packets.WindowOpen.Layout | vendor/github.com/minero/minero/proto/packet/packet.go:1896-1905 | The kinds `WindowOpen.ReadFrom` reads, in order: int8, int8, string, int8, bool. |
| Packets.WindowOpen.Fields | vendor/github.com/minero/minero/proto/packet/packet.go:1907-1918 | The fields `WindowOpen.WriteTo` writes after the id 0x64, in order: `windowId` as int8, `inventoryType` as int8, `windowTitle` as a string, `slots` as int8, `useProvidedTitle` as a bool. |
| Packets.WindowOpen.ReadFrom | vendor/github.com/minero/minero/proto/packet/packet.go:1896-1905 | `WindowOpen.ReadFrom` from a fresh count: int8 into `windowId`, int8 into `inventoryType`, string into `windowTitle`, int8 into `slots`, bool into `useProvidedTitle`; the first failed read is the error and stops the rest, the count covers the bytes taken. |
| Packets.WindowOpen.WriteTo | vendor/github.com/minero/minero/proto/packet/packet.go:1907-1918 | `WindowOpen.WriteTo` from a fresh count: the id 0x64, then the fields; the first failed write is the error and stops the rest, the count covers the bytes written. |
| Packets.WindowClose.RoundTrip | vendor/github.com/minero/minero/proto/packet/packet.go:1927-1941 | `WindowClose` (0x65): `WriteTo` puts out the id and then bytes from which any receiver's `ReadFrom` gets the packet back. |
| Packets.WindowClose.Layout | vendor/github.com/minero/minero/proto/packet/packet.go:1927-1932 | The kinds `WindowClose.ReadFrom` reads, in order: int8. |
| Packets.WindowClose.Fields | vendor/github.com/minero/minero/proto/packet/packet.go:1934-1941 | The fields `WindowClose.WriteTo` writes after the id 0x65, in order: `windowId` as int8. |
| Packets.WindowClose.ReadFrom | vendor/github.com/minero/minero/proto/packet/packet.go:1927-1932 | `WindowClose.ReadFrom` from a fresh count: int8 into `windowId`; the first failed read is the error and stops the rest, the count covers the bytes taken. |
| Packets.WindowClose.WriteTo | vendor/github.com/minero/minero/proto/packet/packet.go:1934-1941 | `WindowClose.WriteTo` from a fresh count: the id 0x65, then the fields; the first failed write is the error and stops the rest, the count covers the bytes written. |
| Packets.WindowClick.RoundTrip | vendor/github.com/minero/minero/proto/packet/packet.go:1955-1979 | `WindowClick` (0x66): `WriteTo` puts out the id and then bytes from which any receiver's `ReadFrom` gets the packet back, except that an empty `Item` slot comes back as `NewSlot`. |
| Packets.WindowClick.Layout | vendor/github.com/minero/minero/proto/packet/packet.go:1955-1965 | The kinds `WindowClick.ReadFrom` reads, in order: int8, int16, int8, int16, int8, slot. |
| Packets.WindowClick.Fields | vendor/github.com/minero/minero/proto/packet/packet.go:1967-1979 | The fields `WindowClick.WriteTo` writes after the id 0x66, in order: `windowId` as int8, `slot` as int16, `button` as int8, `action` as int16, `mode` as int8, `item` as a slot. |
| Packets.WindowClick.ReadFrom | vendor/github.com/minero/minero/proto/packet/packet.go:1955-1965 | `WindowClick.ReadFrom` from a fresh count: int8 into `windowId`, int16 into `slot`, int8 into `button`, int16 into `action`, int8 into `mode`, slot into `item`; the first failed read is the error and stops the rest, the count covers the bytes taken. |
| Packets.WindowClick.WriteTo | vendor/github.com/minero/minero/proto/packet/packet.go:1967-1979 | `WindowClick.WriteTo` from a fresh count: the id 0x66, then the fields; the first failed write is the error and stops the rest, the count covers the bytes written. |
| Packets.WindowSlotSet.RoundTrip | vendor/github.com/minero/minero/proto/packet/packet.go:1990-2008 | `WindowSlotSet` (0x67): `WriteTo` puts out the id and then bytes from which any receiver's `ReadFrom` gets the packet back, except that an empty `Data` slot comes back as `NewSlot`. |
| Packets.WindowSlotSet.Layout | vendor/github.com/minero/minero/proto/packet/packet.go:1990-1997 | The kinds `WindowSlotSet.ReadFrom` reads, in order: int8, int16, slot. |
| Packets.WindowSlotSet.Fields | vendor/github.com/minero/minero/proto/packet/packet.go:1999-2008 | The fields `WindowSlotSet.WriteTo` writes after the id 0x67, in order: `windowId` as int8, `slot` as int16, `data` as a slot. |
| Packets.WindowSlotSet.ReadFrom | vendor/github.com/minero/minero/proto/packet/packet.go:1990-1997 | `WindowSlotSet.ReadFrom` from a fresh count: int8 into `windowId`, int16 into `slot`, slot into `data`; the first failed read is the error and stops the rest, the count covers the bytes taken. |
| Packets.WindowSlotSet.WriteTo | vendor/github.com/minero/minero/proto/packet/packet.go:1999-2008 | `WindowSlotSet.WriteTo` from a fresh count: the id 0x67, then the fields; the first failed write is the error and stops the rest, the count covers the bytes written. |
| Packets.WindowSetItems.RoundTrip | vendor/github.com/minero/minero/proto/packet/packet.go:2019-2042 | `WindowSetItems` (0x68): A count within the slots held reads back as that many slots, an empty slot as `NewSlot`. |
| Packets.WindowSetItems.Head | vendor/github.com/minero/minero/proto/packet/packet.go:2019-2029 | What `WindowSetItems.ReadFrom` reads first: the int8 window id and the int16 count. |
| Packets.WindowSetItems.Fields | vendor/github.com/minero/minero/proto/packet/packet.go:2031-2042 | The fields `WindowSetItems.WriteTo` writes after the id 0x68: `windowId` as int8, `count` as int16, then the slots sent: the first `count` of those held, all of them when `count` is larger, none when it is negative. |
| Packets.WindowSetItems.ReadFrom | vendor/github.com/minero/minero/proto/packet/packet.go:2019-2029 | `WindowSetItems.ReadFrom` from a fresh count: the header; a negative count is the `make` panic with the receiver's slots kept; otherwise `count` slots replace them; the first failed read is the error and stops the rest, the count covers the bytes taken. |
| Packets.WindowSetItems.WriteTo | vendor/github.com/minero/minero/proto/packet/packet.go:2031-2042 | `WindowSetItems.WriteTo` from a fresh count: the id 0x68, the header and the slots sent; a count past the slots held then panics on the first index past them; the first failed write is the error and stops the rest, the count covers the bytes written. |
| Packets.WindowUpdateProperty.RoundTrip | vendor/github.com/minero/minero/proto/packet/packet.go:2053-2071 | `WindowUpdateProperty` (0x69): `WriteTo` puts out the id and then bytes from which any receiver's `ReadFrom` gets the packet back. |
| Packets.WindowUpdateProperty.Layout | vendor/github.com/minero/minero/proto/packet/packet.go:2053-2060 | The kinds `WindowUpdateProperty.ReadFrom` reads, in order: int8, int16, int16. |
| Packets.WindowUpdateProperty.Fields | vendor/github.com/minero/minero/proto/packet/packet.go:2062-2071 | The fields `WindowUpdateProperty.WriteTo` writes after the id 0x69, in order: `windowId` as int8, `property` as int16, `value` as int16. |
| Packets.WindowUpdateProperty.ReadFrom | vendor/github.com/minero/minero/proto/packet/packet.go:2053-2060 | `WindowUpdateProperty.ReadFrom` from a fresh count: int8 into `windowId`, int16 into `property`, int16 into `value`; the first failed read is the error and stops the rest, the count covers the bytes taken. |
| Packets.WindowUpdateProperty.WriteTo | vendor/github.com/minero/minero/proto/packet/packet.go:2062-2071 | `WindowUpdateProperty.WriteTo` from a fresh count: the id 0x69, then the fields; the first failed write is the error and stops the rest, the count covers the bytes written. |
| Packets.ConfirmTransaction.RoundTrip | vendor/github.com/minero/minero/proto/packet/packet.go:2082-2100 | `ConfirmTransaction` (0x6A): `WriteTo` puts out the id and then bytes from which any receiver's `ReadFrom` gets the packet back. |
| Packets.ConfirmTransaction.Layout | vendor/github.com/minero/minero/proto/packet/packet.go:2082-2089 | The kinds `ConfirmTransaction.ReadFrom` reads, in order: int8, int16, bool. |
| Packets.ConfirmTransaction.Fields | vendor/github.com/minero/minero/proto/packet/packet.go:2091-2100 | The fields `ConfirmTransaction.WriteTo` writes after the id 0x6A, in order: `windowId` as int8, `action` as int16, `accepted` as a bool. |
| Packets.ConfirmTransaction.ReadFrom | vendor/github.com/minero/minero/proto/packet/packet.go:2082-2089 | `ConfirmTransaction.ReadFrom` from a fresh count: int8 into `windowId`, int16 into `action`, bool into `accepted`; the first failed read is the error and stops the rest, the count covers the bytes taken. |
| Packets.ConfirmTransaction.WriteTo | vendor/github.com/minero/minero/proto/packet/packet.go:2091-2100 | `ConfirmTransaction.WriteTo` from a fresh count: the id 0x6A, then the fields; the first failed write is the error and stops the rest, the count covers the bytes written. |
| Packets.CreativeInventoryAction.RoundTrip | vendor/github.com/minero/minero/proto/packet/packet.go:2110-2126 | `CreativeInventoryAction` (0x6B): `WriteTo` puts out the id and then bytes from which any receiver's `ReadFrom` gets the packet back, except that an empty `Item` slot comes back as `NewSlot`. |
| Packets.CreativeInventoryAction.Layout | vendor/github.com/minero/minero/proto/packet/packet.go:2110-2116 | The kinds `CreativeInventoryAction.ReadFrom` reads, in order: int16, slot. |
| Packets.CreativeInventoryAction.Fields | vendor/github.com/minero/minero/proto/packet/packet.go:2118-2126 | The fields `CreativeInventoryAction.WriteTo` writes after the id 0x6B, in order: `slot` as int16, `item` as a slot. |
| Packets.CreativeInventoryAction.ReadFrom | vendor/github.com/minero/minero/proto/packet/packet.go:2110-2116 | `CreativeInventoryAction.ReadFrom` from a fresh count: int16 into `slot`, slot into `item`; the first failed read is the error and stops the rest, the count covers the bytes taken. |
| Packets.CreativeInventoryAction.WriteTo | vendor/github.com/minero/minero/proto/packet/packet.go:2118-2126 | `CreativeInventoryAction.WriteTo` from a fresh count: the id 0x6B, then the fields; the first failed write is the error and stops the rest, the count covers the bytes written. |
| Packets.EnchantItem.RoundTrip | vendor/github.com/minero/minero/proto/packet/packet.go:2142-2158 | `EnchantItem` (0x6C): `WriteTo` puts out the id and then bytes from which any receiver's `ReadFrom` gets the packet back. |
| Packets.EnchantItem.Layout | vendor/github.com/minero/minero/proto/packet/packet.go:2142-2148 | The kinds `EnchantItem.ReadFrom` reads, in order: int8, int8. |
| Packets.EnchantItem.Fields | vendor/github.com/minero/minero/proto/packet/packet.go:2150-2158 | The fields `EnchantItem.WriteTo` writes after the id 0x6C, in order: `windowId` as int8, `position` as int8. |
| Packets.EnchantItem.ReadFrom | vendor/github.com/minero/minero/proto/packet/packet.go:2142-2148 | `EnchantItem.ReadFrom` from a fresh count: int8 into `windowId`, int8 into `position`; the first failed read is the error and stops the rest, the count covers the bytes taken. |
| Packets.EnchantItem.WriteTo | vendor/github.com/minero/minero/proto/packet/packet.go:2150-2158 | `EnchantItem.WriteTo` from a fresh count: the id 0x6C, then the fields; the first failed write is the error and stops the rest, the count covers the bytes written. |
| Packets.SignUpdate.RoundTrip | vendor/github.com/minero/minero/proto/packet/packet.go:2176-2202 | `SignUpdate` (0x82): `WriteTo` puts out the id and then bytes from which any receiver's `ReadFrom` gets the packet back. |
| Packets.SignUpdate.Layout | vendor/github.com/minero/minero/proto/packet/packet.go:2176-2187 | The kinds `SignUpdate.ReadFrom` reads, in order: int32, int16, int32, string, string, string, string. |
| Packets.SignUpdate.Fields | vendor/github.com/minero/minero/proto/packet/packet.go:2189-2202 | The fields `SignUpdate.WriteTo` writes after the id 0x82, in order: `x` as int32, `y` as int16, `z` as int32, `lines[0]` as a string, `lines[1]` as a string, `lines[2]` as a string, `lines[3]` as a string. |
| Packets.SignUpdate.ReadFrom | vendor/github.com/minero/minero/proto/packet/packet.go:2176-2187 | `SignUpdate.ReadFrom` from a fresh count: int32 into `x`, int16 into `y`, int32 into `z`, four strings into the four `lines`; the first failed read is the error and stops the rest, the count covers the bytes taken. |
| Packets.SignUpdate.WriteTo | vendor/github.com/minero/minero/proto/packet/packet.go:2189-2202 | `SignUpdate.WriteTo` from a fresh count: the id 0x82, then the fields; the first failed write is the error and stops the rest, the count covers the bytes written. |
| Packets.ItemData.RoundTrip | vendor/github.com/minero/minero/proto/packet/packet.go:2224-2244 | `ItemData` (0x83): A packet whose length is its number of bytes reads back as itself. |
| Packets.ItemData.Head | vendor/github.com/minero/minero/proto/packet/packet.go:2224-2232 | What `ItemData.ReadFrom` reads first: three int16 values. |
| Packets.ItemData.Fields | vendor/github.com/minero/minero/proto/packet/packet.go:2234-2244 | The fields `ItemData.WriteTo` writes after the id 0x83: `typ`, `itemId` and `length` as int16, then the bytes of `text` with no prefix, whatever `length` says. |
| Packets.ItemData.ReadFrom | vendor/github.com/minero/minero/proto/packet/packet.go:2224-2232 | `ItemData.ReadFrom` from a fresh count: the header into `typ`, `itemId`, `length`, then `length` bytes into `text` (none for a length of zero or less); the first failed read is the error and stops the rest, the count covers the bytes taken. |
| Packets.ItemData.WriteTo | vendor/github.com/minero/minero/proto/packet/packet.go:2234-2244 | `ItemData.WriteTo` from a fresh count: the id 0x83, then the fields; the first failed write is the error and stops the rest, the count covers the bytes written. |
| Packets.TileEntityUpdate.RoundTrip | vendor/github.com/minero/minero/proto/packet/packet.go:2258-2282 | `TileEntityUpdate` (0x84): `WriteTo` puts out the id and then bytes from which any receiver's `ReadFrom` gets the packet back. |
| Packets.TileEntityUpdate.Layout | vendor/github.com/minero/minero/proto/packet/packet.go:2258-2268 | The kinds `TileEntityUpdate.ReadFrom` reads, in order: int32, int16, int32, int8, byte array with an int16 length. |
| Packets.TileEntityUpdate.Fields | vendor/github.com/minero/minero/proto/packet/packet.go:2270-2282 | The fields `TileEntityUpdate.WriteTo` writes after the id 0x84, in order: `x` as int32, `y` as int16, `z` as int32, `action` as int8, `data` with an int16 length. |
| Packets.TileEntityUpdate.ReadFrom | vendor/github.com/minero/minero/proto/packet/packet.go:2258-2268 | `TileEntityUpdate.ReadFrom` from a fresh count: int32 into `x`, int16 into `y`, int32 into `z`, int8 into `action`, byte array with an int16 length into `data`; the first failed read is the error and stops the rest, the count covers the bytes taken. |
| Packets.TileEntityUpdate.WriteTo | vendor/github.com/minero/minero/proto/packet/packet.go:2270-2282 | `TileEntityUpdate.WriteTo` from a fresh count: the id 0x84, then the fields; the first failed write is the error and stops the rest, the count covers the bytes written. |
| Packets.StatIncrement.RoundTrip | vendor/github.com/minero/minero/proto/packet/packet.go:2292-2308 | `StatIncrement` (0xC8): `WriteTo` puts out the id and then bytes from which any receiver's `ReadFrom` gets the packet back. |
| Packets.StatIncrement.Layout | vendor/github.com/minero/minero/proto/packet/packet.go:2292-2298 | The kinds `StatIncrement.ReadFrom` reads, in order: int32, int8. |
| Packets.StatIncrement.Fields | vendor/github.com/minero/minero/proto/packet/packet.go:2300-2308 | The fields `StatIncrement.WriteTo` writes after the id 0xC8, in order: `statId` as int32, `amount` as int8. |
| Packets.StatIncrement.ReadFrom | vendor/github.com/minero/minero/proto/packet/packet.go:2292-2298 | `StatIncrement.ReadFrom` from a fresh count: int32 into `statId`, int8 into `amount`; the first failed read is the error and stops the rest, the count covers the bytes taken. |
| Packets.StatIncrement.WriteTo | vendor/github.com/minero/minero/proto/packet/packet.go:2300-2308 | `StatIncrement.WriteTo` from a fresh count: the id 0xC8, then the fields; the first failed write is the error and stops the rest, the count covers the bytes written. |
| Packets.PlayerTabListPing.RoundTrip | vendor/github.com/minero/minero/proto/packet/packet.go:2323-2341 | `PlayerTabListPing` (0xC9): `WriteTo` puts out the id and then bytes from which any receiver's `ReadFrom` gets the packet back. |
| Packets.PlayerTabListPing.Layout | vendor/github.com/minero/minero/proto/packet/packet.go:2323-2330 | The kinds `PlayerTabListPing.ReadFrom` reads, in order: string, bool, int16. |
| Packets.PlayerTabListPing.Fields | vendor/github.com/minero/minero/proto/packet/packet.go:2332-2341 | The fields `PlayerTabListPing.WriteTo` writes after the id 0xC9, in order: `name` as a string, `online` as a bool, `ping` as int16. |
| Packets.PlayerTabListPing.ReadFrom | vendor/github.com/minero/minero/proto/packet/packet.go:2323-2330 | `PlayerTabListPing.ReadFrom` from a fresh count: string into `name`, bool into `online`, int16 into `ping`; the first failed read is the error and stops the rest, the count covers the bytes taken. |
| Packets.PlayerTabListPing.WriteTo | vendor/github.com/minero/minero/proto/packet/packet.go:2332-2341 | `PlayerTabListPing.WriteTo` from a fresh count: the id 0xC9, then the fields; the first failed write is the error and stops the rest, the count covers the bytes written. |
| Packets.PlayerAbilities.RoundTrip | vendor/github.com/minero/minero/proto/packet/packet.go:2365-2403 | `PlayerAbilities` (0xCA): `WriteTo` puts out the id and then bytes from which any receiver's `ReadFrom` gets the packet back. |
| Packets.PlayerAbilities.Layout | vendor/github.com/minero/minero/proto/packet/packet.go:2365-2377 | The kinds `PlayerAbilities.ReadFrom` reads, in order: int8, int8, int8. |
| Packets.PlayerAbilities.Fields | vendor/github.com/minero/minero/proto/packet/packet.go:2379-2403 | The fields `PlayerAbilities.WriteTo` writes after the id 0xCA, in order: the flags byte (`Flags`: 8 for god mode, 4 can fly, 2 flying, 1 creative) as int8, `flyingSpeed` as int8, `walkingSpeed` as int8. |
| Packets.PlayerAbilities.ReadFrom | vendor/github.com/minero/minero/proto/packet/packet.go:2365-2377 | `PlayerAbilities.ReadFrom` from a fresh count: an int8 of flags whose bits 8, 4, 2 and 1 set `godMode`, `canFly`, `flying` and `creative`, then int8 into `flyingSpeed` and int8 into `walkingSpeed`; the first failed read is the error and stops the rest, the count covers the bytes taken. |
| Packets.PlayerAbilities.WriteTo | vendor/github.com/minero/minero/proto/packet/packet.go:2379-2403 | `PlayerAbilities.WriteTo` from a fresh count: the id 0xCA, then the fields; the first failed write is the error and stops the rest, the count covers the bytes written. |
| Packets.TabComplete.RoundTrip | vendor/github.com/minero/minero/proto/packet/packet.go:2412-2426 | `TabComplete` (0xCB): `WriteTo` puts out the id and then bytes from which any receiver's `ReadFrom` gets the packet back. |
| Packets.TabComplete.Layout | vendor/github.com/minero/minero/proto/packet/packet.go:2412-2417 | The kinds `TabComplete.ReadFrom` reads, in order: string. |
| Packets.TabComplete.Fields | vendor/github.com/minero/minero/proto/packet/packet.go:2419-2426 | The fields `TabComplete.WriteTo` writes after the id 0xCB, in order: `text` as a string. |
| Packets.TabComplete.ReadFrom | vendor/github.com/minero/minero/proto/packet/packet.go:2412-2417 | `TabComplete.ReadFrom` from a fresh count: string into `text`; the first failed read is the error and stops the rest, the count covers the bytes taken. |
| Packets.TabComplete.WriteTo | vendor/github.com/minero/minero/proto/packet/packet.go:2419-2426 | `TabComplete.WriteTo` from a fresh count: the id 0xCB, then the fields; the first failed write is the error and stops the rest, the count covers the bytes written. |
| Packets.ClientSettings.RoundTrip | vendor/github.com/minero/minero/proto/packet/packet.go:2439-2461 | `ClientSettings` (0xCC): `WriteTo` puts out the id and then bytes from which any receiver's `ReadFrom` gets the packet back. |
| Packets.ClientSettings.Layout | vendor/github.com/minero/minero/proto/packet/packet.go:2439-2448 | The kinds `ClientSettings.ReadFrom` reads, in order: string, int8, int8, int8, bool. |
| Packets.ClientSettings.Fields | vendor/github.com/minero/minero/proto/packet/packet.go:2450-2461 | The fields `ClientSettings.WriteTo` writes after the id 0xCC, in order: `locale` as a string, `viewDistance` as int8, `chatFlags` as int8, `difficulty` as int8, `showCape` as a bool. |
| Packets.ClientSettings.ReadFrom | vendor/github.com/minero/minero/proto/packet/packet.go:2439-2448 | `ClientSettings.ReadFrom` from a fresh count: string into `locale`, int8 into `viewDistance`, int8 into `chatFlags`, int8 into `difficulty`, bool into `showCape`; the first failed read is the error and stops the rest, the count covers the bytes taken. |
| Packets.ClientSettings.WriteTo | vendor/github.com/minero/minero/proto/packet/packet.go:2450-2461 | `ClientSettings.WriteTo` from a fresh count: the id 0xCC, then the fields; the first failed write is the error and stops the rest, the count covers the bytes written. |
| Packets.ClientStatuses.RoundTrip | vendor/github.com/minero/minero/proto/packet/packet.go:2470-2484 | `ClientStatuses` (0xCD): `WriteTo` puts out the id and then bytes from which any receiver's `ReadFrom` gets the packet back. |
| Packets.ClientStatuses.Layout | vendor/github.com/minero/minero/proto/packet/packet.go:2470-2475 | The kinds `ClientStatuses.ReadFrom` reads, in order: int8. |
| Packets.ClientStatuses.Fields | vendor/github.com/minero/minero/proto/packet/packet.go:2477-2484 | The fields `ClientStatuses.WriteTo` writes after the id 0xCD, in order: `payload` as int8. |
| Packets.ClientStatuses.ReadFrom | vendor/github.com/minero/minero/proto/packet/packet.go:2470-2475 | `ClientStatuses.ReadFrom` from a fresh count: int8 into `payload`; the first failed read is the error and stops the rest, the count covers the bytes taken. |
| Packets.ClientStatuses.WriteTo | vendor/github.com/minero/minero/proto/packet/packet.go:2477-2484 | `ClientStatuses.WriteTo` from a fresh count: the id 0xCD, then the fields; the first failed write is the error and stops the rest, the count covers the bytes written. |
| Packets.ScoreObjective.RoundTrip | vendor/github.com/minero/minero/proto/packet/packet.go:2495-2513 | `ScoreObjective` (0xCE): `WriteTo` puts out the id and then bytes from which any receiver's `ReadFrom` gets the packet back. |
| Packets.ScoreObjective.Layout | vendor/github.com/minero/minero/proto/packet/packet.go:2495-2502 | The kinds `ScoreObjective.ReadFrom` reads, in order: string, string, int8. |
| Packets.ScoreObjective.Fields | vendor/github.com/minero/minero/proto/packet/packet.go:2504-2513 | The fields `ScoreObjective.WriteTo` writes after the id 0xCE, in order: `name` as a string, `value` as a string, `action` as int8. |
| Packets.ScoreObjective.ReadFrom | vendor/github.com/minero/minero/proto/packet/packet.go:2495-2502 | `ScoreObjective.ReadFrom` from a fresh count: string into `name`, string into `value`, int8 into `action`; the first failed read is the error and stops the rest, the count covers the bytes taken. |
| Packets.ScoreObjective.WriteTo | vendor/github.com/minero/minero/proto/packet/packet.go:2504-2513 | `ScoreObjective.WriteTo` from a fresh count: the id 0xCE, then the fields; the first failed write is the error and stops the rest, the count covers the bytes written. |
| Packets.ScoreUpdate.RoundTrip | vendor/github.com/minero/minero/proto/packet/packet.go:2525-2545 | `ScoreUpdate` (0xCF): `WriteTo` puts out the id and then bytes from which any receiver's `ReadFrom` gets the packet back. |
| Packets.ScoreUpdate.Layout | vendor/github.com/minero/minero/proto/packet/packet.go:2525-2533 | The kinds `ScoreUpdate.ReadFrom` reads, in order: string, int8, string, int32. |
| Packets.ScoreUpdate.Fields | vendor/github.com/minero/minero/proto/packet/packet.go:2535-2545 | The fields `ScoreUpdate.WriteTo` writes after the id 0xCF, in order: `entityName` as a string, `action` as int8, `objetive` as a string, `value` as int32. |
| Packets.ScoreUpdate.ReadFrom | vendor/github.com/minero/minero/proto/packet/packet.go:2525-2533 | `ScoreUpdate.ReadFrom` from a fresh count: string into `entityName`, int8 into `action`, string into `objetive`, int32 into `value`; the first failed read is the error and stops the rest, the count covers the bytes taken. |
| Packets.ScoreUpdate.WriteTo | vendor/github.com/minero/minero/proto/packet/packet.go:2535-2545 | `ScoreUpdate.WriteTo` from a fresh count: the id 0xCF, then the fields; the first failed write is the error and stops the rest, the count covers the bytes written. |
| Packets.ScoreDisplay.RoundTrip | vendor/github.com/minero/minero/proto/packet/packet.go:2555-2571 | `ScoreDisplay` (0xD0): `WriteTo` puts out the id and then bytes from which any receiver's `ReadFrom` gets the packet back. |
| Packets.ScoreDisplay.Layout | vendor/github.com/minero/minero/proto/packet/packet.go:2555-2561 | The kinds `ScoreDisplay.ReadFrom` reads, in order: int8, string. |
| Packets.ScoreDisplay.Fields | vendor/github.com/minero/minero/proto/packet/packet.go:2563-2571 | The fields `ScoreDisplay.WriteTo` writes after the id 0xD0, in order: `position` as int8, `displayName` as a string. |
| Packets.ScoreDisplay.ReadFrom | vendor/github.com/minero/minero/proto/packet/packet.go:2555-2561 | `ScoreDisplay.ReadFrom` from a fresh count: int8 into `position`, string into `displayName`; the first failed read is the error and stops the rest, the count covers the bytes taken. |
| Packets.ScoreDisplay.WriteTo | vendor/github.com/minero/minero/proto/packet/packet.go:2563-2571 | `ScoreDisplay.WriteTo` from a fresh count: the id 0xD0, then the fields; the first failed write is the error and stops the rest, the count covers the bytes written. |
| Packets.ScoreTeams.RoundTrip | vendor/github.com/minero/minero/proto/packet/packet.go:2585-2618 | `ScoreTeams` (0xD1): A packet whose count is its number of names, all of them short enough to send, reads back as itself. |
| Packets.ScoreTeams.Head | vendor/github.com/minero/minero/proto/packet/packet.go:2585-2600 | What `ScoreTeams.ReadFrom` reads first: string, int8, string, string, string, int8, int16. |
| Packets.ScoreTeams.Fields | vendor/github.com/minero/minero/proto/packet/packet.go:2602-2618 | The fields `ScoreTeams.WriteTo` writes after the id 0xD1: `name` as a string, `mode` as int8, `displayName`, `prefix`, `suffix` as strings, `friendlyFire` as int8, `count` as int16, then every name of `players` as a string, however many `count` says. |
| Packets.ScoreTeams.ReadFrom | vendor/github.com/minero/minero/proto/packet/packet.go:2585-2600 | `ScoreTeams.ReadFrom` from a fresh count: the header; a negative count is the `make` panic with the receiver's names kept; otherwise `count` names replace them; the first failed read is the error and stops the rest, the count covers the bytes taken. |
| Packets.ScoreTeams.WriteTo | vendor/github.com/minero/minero/proto/packet/packet.go:2602-2618 | `ScoreTeams.WriteTo` from a fresh count: the id 0xD1, then the fields; the first failed write is the error and stops the rest, the count covers the bytes written. |
| Packets.PluginMessage.RoundTrip | vendor/github.com/minero/minero/proto/packet/packet.go:2629-2647 | `PluginMessage` (0xFA): `WriteTo` puts out the id and then bytes from which any receiver's `ReadFrom` gets the packet back. |
| Packets.PluginMessage.Layout | vendor/github.com/minero/minero/proto/packet/packet.go:2629-2636 | The kinds `PluginMessage.ReadFrom` reads, in order: string, byte array with an int16 length. |
| Packets.PluginMessage.Fields | vendor/github.com/minero/minero/proto/packet/packet.go:2638-2647 | The fields `PluginMessage.WriteTo` writes after the id 0xFA, in order: `name` as a string, `payload` with an int16 length. |
| Packets.PluginMessage.ReadFrom | vendor/github.com/minero/minero/proto/packet/packet.go:2629-2636 | `PluginMessage.ReadFrom` from a fresh count: string into `name`, byte array with an int16 length into `payload`; the first failed read is the error and stops the rest, the count covers the bytes taken. |
| Packets.PluginMessage.WriteTo | vendor/github.com/minero/minero/proto/packet/packet.go:2638-2647 | `PluginMessage.WriteTo` from a fresh count: the id 0xFA, then the fields; the first failed write is the error and stops the rest, the count covers the bytes written. |
| Packets.EncryptionKeyResponse.RoundTrip | vendor/github.com/minero/minero/proto/packet/packet.go:2656-2676 | `EncryptionKeyResponse` (0xFC): `WriteTo` puts out the id and then bytes from which any receiver's `ReadFrom` gets the packet back. |
| Packets.EncryptionKeyResponse.Layout | vendor/github.com/minero/minero/proto/packet/packet.go:2656-2664 | The kinds `EncryptionKeyResponse.ReadFrom` reads, in order: byte array with an int16 length, byte array with an int16 length. |
| Packets.EncryptionKeyResponse.Fields | vendor/github.com/minero/minero/proto/packet/packet.go:2666-2676 | The fields `EncryptionKeyResponse.WriteTo` writes after the id 0xFC, in order: `secret` with an int16 length, `token` with an int16 length. |
| Packets.EncryptionKeyResponse.ReadFrom | vendor/github.com/minero/minero/proto/packet/packet.go:2656-2664 | `EncryptionKeyResponse.ReadFrom` from a fresh count: byte array with an int16 length into `secret`, byte array with an int16 length into `token`; the first failed read is the error and stops the rest, the count covers the bytes taken. |
| Packets.EncryptionKeyResponse.WriteTo | vendor/github.com/minero/minero/proto/packet/packet.go:2666-2676 | `EncryptionKeyResponse.WriteTo` from a fresh count: the id 0xFC, then the fields; the first failed write is the error and stops the rest, the count covers the bytes written. |
| Packets.EncryptionKeyRequest.RoundTrip | vendor/github.com/minero/minero/proto/packet/packet.go:2686-2708 | `EncryptionKeyRequest` (0xFD): `WriteTo` puts out the id and then bytes from which any receiver's `ReadFrom` gets the packet back. |
| Packets.EncryptionKeyRequest.Layout | vendor/github.com/minero/minero/proto/packet/packet.go:2686-2695 | The kinds `EncryptionKeyRequest.ReadFrom` reads, in order: string, byte array with an int16 length, byte array with an int16 length. |
| Packets.EncryptionKeyRequest.Fields | vendor/github.com/minero/minero/proto/packet/packet.go:2697-2708 | The fields `EncryptionKeyRequest.WriteTo` writes after the id 0xFD, in order: `serverId` as a string, `publicKey` with an int16 length, `token` with an int16 length. |
| Packets.EncryptionKeyRequest.ReadFrom | vendor/github.com/minero/minero/proto/packet/packet.go:2686-2695 | `EncryptionKeyRequest.ReadFrom` from a fresh count: string into `serverId`, byte array with an int16 length into `publicKey`, byte array with an int16 length into `token`; the first failed read is the error and stops the rest, the count covers the bytes taken. |
| Packets.EncryptionKeyRequest.WriteTo | vendor/github.com/minero/minero/proto/packet/packet.go:2697-2708 | `EncryptionKeyRequest.WriteTo` from a fresh count: the id 0xFD, then the fields; the first failed write is the error and stops the rest, the count covers the bytes written. |
| Packets.ServerListPing.RoundTrip | vendor/github.com/minero/minero/proto/packet/packet.go:2717-2731 | `ServerListPing` (0xFE): `WriteTo` puts out the id and then bytes from which any receiver's `ReadFrom` gets the packet back. |
| Packets.ServerListPing.Layout | vendor/github.com/minero/minero/proto/packet/packet.go:2717-2722 | The kinds `ServerListPing.ReadFrom` reads, in order: int8. |
| Packets.ServerListPing.Fields | vendor/github.com/minero/minero/proto/packet/packet.go:2724-2731 | The fields `ServerListPing.WriteTo` writes after the id 0xFE, in order: `magic` as int8. |
| Packets.ServerListPing.ReadFrom | vendor/github.com/minero/minero/proto/packet/packet.go:2717-2722 | `ServerListPing.ReadFrom` from a fresh count: int8 into `magic`; the first failed read is the error and stops the rest, the count covers the bytes taken. |
| Packets.ServerListPing.WriteTo | vendor/github.com/minero/minero/proto/packet/packet.go:2724-2731 | `ServerListPing.WriteTo` from a fresh count: the id 0xFE, then the fields; the first failed write is the error and stops the rest, the count covers the bytes written. |
| Packets.Disconnect.RoundTrip | vendor/github.com/minero/minero/proto/packet/packet.go:2740-2754 | `Disconnect` (0xFF): `WriteTo` puts out the id and then bytes from which any receiver's `ReadFrom` gets the packet back. |
| Packets.Disconnect.Layout | vendor/github.com/minero/minero/proto/packet/packet.go:2740-2745 | The kinds `Disconnect.ReadFrom` reads, in order: string. |
| Packets.Disconnect.Fields | vendor/github.com/minero/minero/proto/packet/packet.go:2747-2754 | The fields `Disconnect.WriteTo` writes after the id 0xFF, in order: `reason` as a string. |
| Packets.Disconnect.ReadFrom | vendor/github.com/minero/minero/proto/packet/packet.go:2740-2745 | `Disconnect.ReadFrom` from a fresh count: string into `reason`; the first failed read is the error and stops the rest, the count covers the bytes taken. |
| Packets.Disconnect.WriteTo | vendor/github.com/minero/minero/proto/packet/packet.go:2747-2754 | `Disconnect.WriteTo` from a fresh count: the id 0xFF, then the fields; the first failed write is the error and stops the rest, the count covers the bytes written. |
| Packets.EntityDestroy.Written | vendor/github.com/minero/minero/proto/packet/packet.go:1007-1027 | What `WriteTo` puts out reads as the count and then the ids. |
| Packets.EntityDestroy.ReadsBack | vendor/github.com/minero/minero/proto/packet/packet.go:1007-1027 | What the receiver makes of an input whose count and ids read as written. |
| Packets.EntityDestroy.Read | vendor/github.com/minero/minero/proto/packet/packet.go:1007-1027 | `ReadFrom` on a stream: the count, then the loop over the ids. Proved to give exactly what `ReadFrom` specifies. |
| Packets.BlockChangeMulti.Written | vendor/github.com/minero/minero/proto/packet/packet.go:1456-1483 | What `WriteTo` puts out reads as the header and then the records. |
| Packets.BlockChangeMulti.ReadsBack | vendor/github.com/minero/minero/proto/packet/packet.go:1456-1483 | What the receiver makes of an input whose header and records read as written. |
| Packets.MapChunkBulk.Written | vendor/github.com/minero/minero/proto/packet/packet.go:1613-1646 | What `WriteTo` puts out reads as the header, then the data and the metas. |
| Packets.MapChunkBulk.ReadsBack | vendor/github.com/minero/minero/proto/packet/packet.go:1613-1646 | What the receiver makes of an input whose header and run read as written. |
| Packets.MapChunkBulk.Read | vendor/github.com/minero/minero/proto/packet/packet.go:1613-1646 | `ReadFrom` on a stream: the header, the data, then the loop over the metas. Proved to give exactly what `ReadFrom` specifies. |
| Packets.Explosion.Written | vendor/github.com/minero/minero/proto/packet/packet.go:1659-1700 | What `WriteTo` puts out reads as the header, then the records and the motion. |
| Packets.Explosion.ReadsBack | vendor/github.com/minero/minero/proto/packet/packet.go:1659-1700 | What the receiver makes of an input whose header, records and motion read as written. |
| Packets.WindowSetItems.Written | vendor/github.com/minero/minero/proto/packet/packet.go:2019-2042 | What `WriteTo` puts out, for a count within the slots held, reads as the header and then the slots. |
| Packets.WindowSetItems.ReadsBack | vendor/github.com/minero/minero/proto/packet/packet.go:2019-2042 | What the receiver makes of an input whose header and slots read as written. |
| Packets.WindowSetItems.Read | vendor/github.com/minero/minero/proto/packet/packet.go:2019-2042 | `ReadFrom` on a stream: the header, then the loop over the slots. Proved to give exactly what `ReadFrom` specifies. |
| Packets.ItemData.Written | vendor/github.com/minero/minero/proto/packet/packet.go:2224-2244 | What `WriteTo` puts out reads as the header and then the bytes. |
| Packets.ItemData.ReadsBack | vendor/github.com/minero/minero/proto/packet/packet.go:2224-2244 | What the receiver makes of an input whose header and bytes read as written. |
| Packets.ItemData.Read | vendor/github.com/minero/minero/proto/packet/packet.go:2224-2244 | `ReadFrom` on a stream. Proved to give exactly what `ReadFrom` specifies. |
| Packets.ScoreTeams.Written | vendor/github.com/minero/minero/proto/packet/packet.go:2585-2618 | What `WriteTo` puts out reads as the header and then the names. |
| Packets.ScoreTeams.ReadsBack | vendor/github.com/minero/minero/proto/packet/packet.go:2585-2618 | What the receiver makes of an input whose header and names read as written. |
| Packets.BlockChangeMulti.ReadBlocksFrom | vendor/github.com/minero/minero/proto/packet/packet.go:1456-1483 | The loop of `ReadFrom` after the header, proved to give what the specifying function gives. |
| Packets.BlockChangeMulti.Read | vendor/github.com/minero/minero/proto/packet/packet.go:1456-1483 | `ReadFrom` on a stream: the header, then the loop over the records. Proved to give exactly what `ReadFrom` specifies. |
| Packets.Explosion.ReadRecordsFrom | vendor/github.com/minero/minero/proto/packet/packet.go:1659-1700 | The loop of `ReadFrom` after the header, proved to give what the specifying function gives. |
| Packets.Explosion.Read | vendor/github.com/minero/minero/proto/packet/packet.go:1659-1700 | `ReadFrom` on a stream: the header, the loop over the records, then the motion. Proved to give exactly what `ReadFrom` specifies. |
| Packets.ScoreTeams.ReadNamesFrom | vendor/github.com/minero/minero/proto/packet/packet.go:2585-2618 | The loop of `ReadFrom` after the header, proved to give what the specifying function gives. |
| Packets.ScoreTeams.Read | vendor/github.com/minero/minero/proto/packet/packet.go:2585-2618 | `ReadFrom` on a stream: the header, then the loop over the names. Proved to give exactly what `ReadFrom` specifies. |
| Packets.WindowSetItems.Write | vendor/github.com/minero/minero/proto/packet/packet.go:2019-2042 | `WriteTo` on a stream: slot i is sent while i is below `Count`; proved to give what `WriteTo` specifies. |
| Packets.WindowSetItems.Sent | vendor/github.com/minero/minero/proto/packet/packet.go:2019-2042 | How many slots the write loop sends: never more than `Count` or the slots held. |
| Packets.WindowSetItems.CountPastSlotsPanics | vendor/github.com/minero/minero/proto/packet/packet.go:2019-2042 | A count past the slots held makes `WriteTo` panic (index out of range). |
| Packets.WindowSetItems.WriteInParts | vendor/github.com/minero/minero/proto/packet/packet.go:2019-2042 | `WriteTo` is the id, the header, the slots sent and the panic, in that order. |
| Packets.EntityDestroy.CountWraps | vendor/github.com/minero/minero/proto/packet/packet.go:1007-1027 | 128 ids wrap the `int8` count to -128, so a reader takes none of them. |
| Packets.BlockChangeMulti.NegativeCountPanics | vendor/github.com/minero/minero/proto/packet/packet.go:1456-1483 | A packet sent with a negative count makes the reader panic in `make`. |
| Packets.Explosion.NegativeCountPanics | vendor/github.com/minero/minero/proto/packet/packet.go:1659-1700 | A packet sent with a negative count makes the reader panic in `make`. |
| Packets.ScoreTeams.NegativeCountPanics | vendor/github.com/minero/minero/proto/packet/packet.go:2585-2618 | A packet sent with a negative count makes the reader panic in `make`. |
| Packets.Explosion.Stores | vendor/github.com/minero/minero/proto/packet/packet.go:1659-1700 | Storing the values read into any receiver gives the packet written. |
| Packets.MapChunkBulk.MetasPastDataPanic | vendor/github.com/minero/minero/proto/packet/packet.go:1613-1646 | As written (`make` by the data length at line 1619), more metas than data bytes end in an index-out-of-range panic. |
| Packets.MapChunkBulk.DataPastMetasPads | vendor/github.com/minero/minero/proto/packet/packet.go:1613-1646 | As written, fewer metas than data bytes come back padded with zero metas up to the data length. |
| Packets.MapChunkBulk.OneMetaNoData | vendor/github.com/minero/minero/proto/packet/packet.go:1613-1646 | One meta and no data: the as-written read panics where the corrected read gives the packet back. |
| Packets.MapChunkBulk.RunReadBack | vendor/github.com/minero/minero/proto/packet/packet.go:1613-1646 | The data and metas are written in the run layout and read back as themselves. |
| Packets.MapChunkBulk.HeadCounts | vendor/github.com/minero/minero/proto/packet/packet.go:1613-1646 | The header read back carries the meta count and the data length. |
| Packets.PlayerAbilities.Flags | vendor/github.com/minero/minero/proto/packet/packet.go:2365-2403 | The flags byte: bits 8, 4, 2 and 1 for god mode, can fly, flying and creative, nothing else. |
| Packets.PlayerAbilities.FlagsRoundTrip | vendor/github.com/minero/minero/proto/packet/packet.go:2365-2403 | Each boolean is read back as the bit the write set for it. |
| Packets.Int32sRoundTrip | vendor/github.com/minero/minero/proto/packet/packet.go:1007-1027 | Written `int32`s read back as themselves. |
| Packets.StringsRoundTrip | vendor/github.com/minero/minero/proto/packet/packet.go:2585-2618 | Written strings read back as themselves. |
| Packets.SlotsRoundTrip | vendor/github.com/minero/minero/proto/packet/packet.go:2019-2042 | Written slots read back as themselves, an empty one as `NewSlot`. |
| Packets.MetasRoundTrip | vendor/github.com/minero/minero/proto/packet/packet.go:1613-1646 | Written chunk metas read back as themselves (masks as `uint16`). |
| Packets.RecordsRoundTrip | vendor/github.com/minero/minero/proto/packet/packet.go:1659-1700 | Written explosion records read back as themselves. |
| Packets.IntsNoPanic | vendor/github.com/minero/minero/proto/packet/packet.go:1613-1646 | Reading integers records no panic: a short stream is an I/O error. |
| Packets.WriteId | vendor/github.com/minero/minero/proto/packet/packet.go:2766-2772 | `Id.WriteTo`: the id byte, one byte counted, or the destination's error; through `Must` after that. |
| Packets.WritePacketHealthy | vendor/github.com/minero/minero/proto/packet/packet.go:53-66 | On a healthy destination a packet is its id and its fields' bytes, all counted. |
| Packets.WritePacketBroken | vendor/github.com/minero/minero/proto/packet/packet.go:53-66 | On a failed destination nothing goes out, nothing is counted, and an error is reported. |
| Packets.AfterId | vendor/github.com/minero/minero/proto/packet/packet.go:53-66 | The bytes after the id, followed by whatever comes next. |
| Packets.FlatRoundTrip | vendor/github.com/minero/minero/proto/packet/packet.go:53-66 | A packet read in one pass: what the write puts after the id reads back field by field as the read-backs of the fields, all bytes counted, no error. |
| Packets.SplitRoundTrip | vendor/github.com/minero/minero/proto/packet/packet.go:1456-1483 | A packet read in two passes, a head then a run whose layout the head gives: each reads back as written. |
| Packets.SplitValid | vendor/github.com/minero/minero/proto/packet/packet.go:1456-1483 | Fields valid together are valid apart and put out the bytes of each part in turn. |
| Packets.ReadId | vendor/github.com/minero/minero/proto/packet/packet.go:2758-2764 | `Id.ReadFrom`: one byte, or an error and nothing on an empty input. |
| Packets.CheckPacketId | vendor/github.com/minero/minero/proto/packet/packet.go:24-40 | `CheckPacketId`: an error exactly when the id read is not the one expected. |
| Packets.IdRoundTrip | vendor/github.com/minero/minero/proto/packet/packet.go:24-2772 | The id written reads back as one byte that `CheckPacketId` accepts, leaving the fields. |
| Packets.ReadIdFrom | vendor/github.com/minero/minero/proto/packet/packet.go:2758-2764 | `Id.ReadFrom` on a stream gives what `ReadId` specifies. |
| Packets.WriteIdTo | vendor/github.com/minero/minero/proto/packet/packet.go:2766-2772 | `rw.Must(id.WriteTo(w))` gives what `WriteId` specifies. |
| Packets.ReadLayoutFrom | vendor/github.com/minero/minero/proto/packet/packet.go:53-58 | A `ReadFrom` with a fresh ReadWriter reads its layout as `ReadFields` specifies. |
| Packets.WritePacketTo | vendor/github.com/minero/minero/proto/packet/packet.go:59-66 | A `WriteTo` with a fresh ReadWriter: the id then the fields, as `WritePacket` specifies. |

## Left out

- PacketRW.WriteStr, PacketRW.WriteString: add the count `McString.WriteToCounted` reports (2 + 2 bytes per unit). `ReadWriter.WriteString` adds `mct.String.WriteTo`'s uint16-wrapped count, which differs from 32767 units on (`McString.WriteToCountWraps`). The bytes written are the same.
- Slots.ReadFrom: is the corrected read, which `PacketRW.ReadSlotField` and `Metadata.ReadPayload` use. A stream that ends before the payload, and an empty payload, are I/O errors there. The source instead passes a nil gzip reader to `io.Copy` (`Slots.TruncatedSlotPanics`), and it counts the decompressed bytes as read (`Slots.AsWrittenOvercounts`).
- Packets.MapChunkBulk.ReadFrom, Packets.MapChunkBulk.Read: follow the corrected read, which sizes the metas by `Count`. The as-written read that sizes them by `Length` (packet.go line 1619) is `Packets.MapChunkBulk.ReadFromAsWritten`; it is only used by the finding lemmas.
- NbtTag.Mode: `Intended` is a correction (`IntArray` size, `String` counts, compound end byte). Each round-trip and count law is proved for `Intended`, and `NbtFindings` shows where `AsWritten` differs.
- Packets.EntityNamedSpawn, Packets.EntityTeleport, Packets.EntityLook: carry the raw wire integers. The `abs` conversions between float positions and fixed-point ints (`abs.Pos`, `abs.Look`) are not part of this model, because they are float arithmetic.
- Must.ReadWriter, PacketRW, Ids.Generator, Config.Config: the methods are modelled with by-reference receivers, so their updates persist. In Go, `Handler.Check` has a pointer receiver and keeps its error. The `must.ReadWriter` methods (`Must`, `Result`, `Reset`, every `Read*` and `Write*`), the `MustReadWriter` methods, queue `push`/`pop` and the `Config` methods have value receivers, so their field updates are lost (map contents excepted). As written, every packet `ReadFrom` and `WriteTo` that goes through a `MustReadWriter` therefore reports 0 bytes and no error whatever happened; the model follows the intent and reports the bytes counted and the first error. Where the loss is the bug itself, it is a finding (`Must.MustAsWritten`, `Ids.ReleaseAsWritten`, `Ids.PopAsWritten`).
- Chat.Translate: takes a single literal control character. `chat.Translate` compiles an arbitrary regular expression built from its argument and panics on an invalid one; regular expressions are not modelled.
- Player.Player.OnlineMode: sets the authentication flag only. Stream encryption and the session-server check are left out (crypto and network).
- Player.Player: the outbox holds `Player.Packet` values (chat, keep-alive, named spawn), a type of its own, and not the `Packets` datatypes. The named spawn keeps the player's float position and look, because the `abs` conversions to wire integers are left out. So the outbox is not tied to a wire encoding.
- NbtNav.SetTagValue: takes the result of `fmt.Sscan` as a parameter (`scanned`), either the integer read or the IEEE bits of the float read. Decimal and float text parsing is not modelled.
- NbtNav.TypeFromString: `Lower` maps A-Z, the dotted capital I (U+0130) and the Kelvin sign (U+212A) onto ASCII and keeps every other rune. Go's Unicode lower-casing maps other runes too, but never onto ASCII, and the type names are ASCII, so whether such a text matches is unchanged. Invalid UTF-8 is outside the model, whose strings are sequences of runes.
- NbtNav.PrettyByteArray: models the digits and the cut only. The type name, length and terminal colours around them are left out, as are `prettyPrint`, `deepPrettyPrint`, `prettyString` and `prettyFloat` (printing and colours).
- Config.Config.ParseFile: takes the file contents as a parameter (`None` when it could not be read). `Save` returns the text instead of writing the file. File I/O is left out.
- Config.Config.Save: is modelled with the corrected `fileOutput` (see "## Findings"). `ConfigMap.FileOutput` in `AsWritten` mode is the code as written.
- ConfigMap.Quote: escapes runes as `strconv.Quote` does for printable and control characters. The `\u`/`\U` forms for non-printable non-ASCII runes are not modelled; only the one-line property is stated.
- Players.Players, Tickers.Tickers, Ids.Generator: the `sync.RWMutex` locking is left out (no concurrency).
- Ids.Generator: the package-level `DefaultGenerator` with its `Get`/`Rel` wrappers is the same generator and is not modelled separately.
- Material: `IsEdible` is not modelled, because the item constants it lists are not part of this model. The name table of `FromName` is not modelled (strings of the material enumeration).
- Uuid.UUID4: takes the 16 random bytes as a parameter (randomness).
- Player.Player.Tick: takes the random keep-alive id as a parameter. `New` takes the wall-clock time as a parameter.
- Error texts: Go error strings are modelled as error variants with the operation name, not as formatted text.
- Float values: `float32`/`float64` fields are carried as their IEEE bit patterns; no float arithmetic is modelled.
- Network, compression and crypto: connections, gzip/zlib (slot enchantments and chunk data are opaque byte strings), encryption and authentication are left out.
- The command line and REPL of nbtnav (`commands.go` beyond the initial current path "/", the file manager, reading and writing NBT files) are left out (terminal I/O).

## Findings

| source | as written | input that shows it | evidently intended | confidence | as-written member | corrected member |
|---|---|---|---|---|---|---|
| vendor/github.com/minero/minero/util/must/readwriter.go:21-29 | `Must` returns at once while no error is recorded (the nil test is inverted), so it never records a first error or its count; with an error recorded it overwrites it | a fresh `ReadWriter`, `Must(3, err)` with a non-nil `err` | record n and err unless an error is already recorded | not executed | Must.MustAsWrittenDropsFirstError | Must.MustHook |
| vendor/github.com/minero/minero-go/types/minecraft/string.go:33-49 | the reported count `2 + length*2` is computed in `uint16` | a string of 32767 UTF-16 units: 65536 bytes written, count 0 | count the bytes written | not executed | McString.WriteToCountWraps | McString.WriteToCounted |
| vendor/github.com/minero/minero/id/id.go:75-85 | `pop` takes the head but never decrements `len`, so `empty` stays false | one push then two pops: the second indexes an empty store | pop removes the id and shortens the queue | not executed | Ids.PopAsWrittenOverruns | Ids.Generator.Pop |
| vendor/github.com/minero/minero/id/id.go:33-35 | `push` has a value receiver, so `Rel` changes nothing and a released id is never reused | with counter 5 and nothing queued, `Rel(3)` then `Get` returns 6, not 3 | released ids are handed out again, oldest first | not executed | Ids.ReleasedIdIsLost | Ids.Generator.Rel |
| vendor/github.com/minero/minero-go/types/minecraft/metadata.go:68-72 | after a read error the key stays 0, never 0x7F, so the loop never ends | an empty stream | stop at the first error | not executed | Metadata.EmptyStreamNeverEnds | Metadata.ReadEntries |
| vendor/github.com/minero/minero/proto/packet/packet.go:1613-1646 | the metas are allocated with the data length (`Length`) instead of the meta count (`Count`) | one meta and no data bytes: the loop indexes past an empty slice | `make([]ChunkMeta, p.Count)` | not executed | Packets.MapChunkBulk.OneMetaNoData | Packets.MapChunkBulk.RoundTrip |
| vendor/github.com/minero/minero-go/types/minecraft/slot.go:30-56 | a failed read leaves `Length` at 0, not -1, so the code goes on to `gzip.NewReader` on an empty buffer; the nil reader it returns is dereferenced by `io.Copy` | the empty stream | stop with the read error | not executed | Slots.TruncatedSlotPanics | Slots.TruncatedSlotIsError |
| vendor/github.com/minero/minero-go/proto/nbt/array.go:103 | `IntArray.Size` counts one byte per element | `IntArray{1, 2}`: Size 6, payload 12 bytes | 4 + 4 bytes per element | not executed | NbtFindings.IntArraySizeAsWritten | NbtFindings.IntArraySizeIntended |
| vendor/github.com/minero/minero-go/proto/nbt/string.go:53-69 | `WriteTo` reports the byte length without its 2-byte prefix | `String{"A"}`: count 1, 3 bytes written | the bytes written | not executed | NbtFindings.StringWriteCountAsWritten | NbtLaws.WriteCountIsLength |
| vendor/github.com/minero/minero-go/proto/nbt/string.go:26-50 | `ReadFrom` reports twice the length and leaves out the prefix | "abc": count 6, 5 bytes taken | the bytes taken | not executed | NbtFindings.StringReadCountAsWritten | NbtFindings.StringReadCountIntended |
| vendor/github.com/minero/minero/proto/nbt/compound.go:70-78 | a failed type-byte read leaves `tt` at zero, which is taken for `TagEnd` before the error is checked | the bytes 0x0A 0x00 0x00: an empty compound with no error | report the missing `TagEnd` as an I/O error | not executed | NbtFindings.TruncatedCompoundAsWritten | NbtFindings.EndByteRequired |
| vendor/github.com/minero/minero-go/config/map.go:50-66 | a key without a dot leaves the header "" and calls `strings.Repeat("\t", -1)` the first time, which panics | the map `{"port": "25565"}` | write a top-level key as its line alone | not executed | ConfigMap.TopLevelKeyAsWritten | ConfigLaws.SaveParse |
