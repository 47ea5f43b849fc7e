/**
 * The sticky-error reader/writer every codec is built on. It counts the bytes
 * moved and keeps the first error; once an error is recorded, every later read
 * returns the zero value without touching the stream and every later write is
 * dropped.
 *
 * The Go methods have value receivers, so their updates to `N` and `Err` are
 * lost when they return; this module models the behaviour the type documents
 * (updates that stick), which is what every caller relies on.
 */
module Must {
  import opened Opt
  import opened Integers

  /** An error recorded by a ReadWriter: the operation whose stream call failed, or a runtime panic. */
  datatype Error = IoError(op: string) | Panic(reason: string)

  /** The ReadWriter's bookkeeping: bytes counted so far and the first error. */
  datatype RW = RW(n: int, err: Option<Error>)

  const Fresh: RW := RW(0, None)

  /** A reader's state: the bookkeeping and the input not yet consumed. */
  datatype In = In(rw: RW, rest: seq<Byte>)

  /** A reading step: the value returned and the state after it. */
  datatype Step<T> = Step(value: T, st: In)

  /** The destination of writes: the bytes accepted so far, and whether the connection has failed. */
  datatype Sink = Sink(out: seq<Byte>, broken: bool)

  /** A writer's state: the bookkeeping and the destination. */
  datatype Out = Out(rw: RW, sink: Sink)

  /**
   * From st0 to st1 without an error, the count grew by exactly the number of
   * bytes taken from the input.
   */
  predicate Advances(st0: In, st1: In)
  {
    st1.rw.err.None? ==>
      st0.rw.err.None? && st0.rw.n <= st1.rw.n && st1.rw.n - st0.rw.n + |st1.rest| == |st0.rest|
  }

  /** `Must` as it is meant to work: record n and err unless an error is already recorded. */
  function MustHook(rw: RW, n: int, err: Option<Error>): (r: RW)
    ensures rw.err.Some? ==> r == rw
    ensures rw.err.None? ==> r.n == rw.n + n && r.err == err
  {
    if rw.err.Some? then rw else RW(rw.n + n, err)
  }

  /** `Must` as written: the nil test is inverted, so nothing is recorded while no error is set. */
  function MustAsWritten(rw: RW, n: int, err: Option<Error>): (r: RW)
    ensures rw.err.None? ==> r == rw
  {
    if rw.err.None? then rw else RW(rw.n + n, err)
  }

  /** The inverted test drops the first error a foreign call reports, and its byte count. */
  lemma MustAsWrittenDropsFirstError(n: int, e: Error)
    ensures MustAsWritten(Fresh, n, Some(e)) == Fresh
    ensures MustHook(Fresh, n, Some(e)) == RW(n, Some(e))
  {
  }

  /** The inverted test also overwrites an error already recorded, and may clear it. */
  lemma MustAsWrittenClearsError(rw: RW, n: int)
    requires rw.err.Some?
    ensures MustAsWritten(rw, n, None).err == None
    ensures MustHook(rw, n, None) == rw
  {
  }

  /** `Handler.Check`: keep the first error. */
  function CheckHook(rw: RW, err: Option<Error>): (r: RW)
    ensures r.n == rw.n
    ensures r.err == if rw.err.Some? then rw.err else err
  {
    if rw.err.None? then RW(rw.n, err) else rw
  }

  /** A runtime panic: it unwinds whatever error was recorded before it. */
  function Raise(rw: RW, reason: string): (r: RW)
    ensures r.n == rw.n && r.err.Some? && r.err.value.Panic?
    ensures rw.err.Some? && rw.err.value.Panic? ==> r == rw
  {
    if rw.err.Some? && rw.err.value.Panic? then rw else RW(rw.n, Some(Panic(reason)))
  }

  /**
   * `ReadInt8`/`16`/`32`/`64`: with an error already recorded, returns 0 and
   * reads nothing; a short input records an error and returns 0; otherwise the
   * value is decoded big-endian and k is added to N.
   */
  function ReadInt(st: In, k: nat, op: string): (r: Step<int>)
    requires k >= 1
    ensures Fits(r.value, k)
    ensures st.rw.err.Some? ==> r == Step(0, st)
    ensures st.rw.err.None? && |st.rest| < k ==> r == Step(0, In(RW(st.rw.n, Some(IoError(op))), []))
    ensures st.rw.err.None? && |st.rest| >= k ==>
      r.st.rw == RW(st.rw.n + k, None) && st.rest == Encode(r.value, k) + r.st.rest
  {
    if st.rw.err.Some? then Step(0, st)
    else
      match Integers.ReadFrom(k, st.rest)
      case Failed(_, rest) => Step(0, In(RW(st.rw.n, Some(IoError(op))), rest))
      case Decoded(v, n, rest) => Step(v, In(RW(st.rw.n + n, None), rest))
  }

  function ReadI8(st: In): (r: Step<Int8>)
    ensures Step(r.value as int, r.st) == ReadInt(st, 1, "ReadInt8")
    ensures Advances(st, r.st)
  {
    var t := ReadInt(st, 1, "ReadInt8");
    FitsWidths(t.value);
    Step(t.value, t.st)
  }

  function ReadI16(st: In): (r: Step<Int16>)
    ensures Step(r.value as int, r.st) == ReadInt(st, 2, "ReadInt16")
    ensures Advances(st, r.st)
  {
    var t := ReadInt(st, 2, "ReadInt16");
    FitsWidths(t.value);
    Step(t.value, t.st)
  }

  function ReadI32(st: In): (r: Step<Int32>)
    ensures Step(r.value as int, r.st) == ReadInt(st, 4, "ReadInt32")
    ensures Advances(st, r.st)
  {
    var t := ReadInt(st, 4, "ReadInt32");
    FitsWidths(t.value);
    Step(t.value, t.st)
  }

  function ReadI64(st: In): (r: Step<Int64>)
    ensures Step(r.value as int, r.st) == ReadInt(st, 8, "ReadInt64")
    ensures Advances(st, r.st)
  {
    var t := ReadInt(st, 8, "ReadInt64");
    FitsWidths(t.value);
    Step(t.value, t.st)
  }

  /** `ReadFloat32`/`64`: the same, for a raw k-byte bit pattern. */
  function ReadBits(st: In, k: nat, op: string): (r: Step<nat>)
    ensures r.value < Pow256(k)
    ensures st.rw.err.Some? ==> r == Step(0, st)
    ensures st.rw.err.None? && |st.rest| < k ==> r == Step(0, In(RW(st.rw.n, Some(IoError(op))), []))
    ensures st.rw.err.None? && |st.rest| >= k ==>
      r.st.rw == RW(st.rw.n + k, None) && st.rest == BytesOf(r.value, k) + r.st.rest
  {
    if st.rw.err.Some? then Step(0, st)
    else if |st.rest| < k then Step(0, In(RW(st.rw.n, Some(IoError(op))), []))
    else
      BytesOfValueOf(st.rest[..k]);
      Step(ValueOf(st.rest[..k]), In(RW(st.rw.n + k, None), st.rest[k..]))
  }

  function ReadF32(st: In): (r: Step<Float32Bits>)
    ensures Step(r.value as nat, r.st) == ReadBits(st, 4, "ReadFloat32")
    ensures Advances(st, r.st)
  {
    var t := ReadBits(st, 4, "ReadFloat32");
    assert Pow256(4) == 0x1_0000_0000;
    Step(t.value, t.st)
  }

  function ReadF64(st: In): (r: Step<Float64Bits>)
    ensures Step(r.value as nat, r.st) == ReadBits(st, 8, "ReadFloat64")
    ensures Advances(st, r.st)
  {
    var t := ReadBits(st, 8, "ReadFloat64");
    assert Pow256(8) == 0x1_0000_0000_0000_0000;
    Step(t.value, t.st)
  }

  /**
   * `ReadByteArray`: a length of zero or less yields no bytes and no error; a
   * stream shorter than the length records an error (the stream is drained);
   * otherwise exactly `length` bytes are returned and counted.
   */
  function ReadByteArray(st: In, length: int): (r: Step<seq<Byte>>)
    ensures st.rw.err.Some? ==> r == Step([], st)
    ensures st.rw.err.None? && length <= 0 ==> r == Step([], st)
    ensures st.rw.err.None? && 0 < length && |st.rest| < length ==>
      r == Step([], In(RW(st.rw.n, Some(IoError("ReadByteArray"))), []))
    ensures st.rw.err.None? && 0 < length <= |st.rest| ==>
      r.st.rw == RW(st.rw.n + length, None) && |r.value| == length && st.rest == r.value + r.st.rest
    ensures Advances(st, r.st)
  {
    if st.rw.err.Some? || length <= 0 then Step([], st)
    else if |st.rest| < length then Step([], In(RW(st.rw.n, Some(IoError("ReadByteArray"))), []))
    else Step(st.rest[..length], In(RW(st.rw.n + length, None), st.rest[length..]))
  }

  /**
   * Every `Write*`: dropped when an error is recorded; a failed destination
   * records an error and accepts nothing; otherwise the bytes are appended and counted.
   */
  function WriteBytes(o: Out, bytes: seq<Byte>, op: string): (r: Out)
    ensures o.rw.err.Some? ==> r == o
    ensures o.rw.err.None? && o.sink.broken ==> r == Out(RW(o.rw.n, Some(IoError(op))), o.sink)
    ensures o.rw.err.None? && !o.sink.broken ==>
      r == Out(RW(o.rw.n + |bytes|, None), Sink(o.sink.out + bytes, false))
  {
    if o.rw.err.Some? then o
    else if o.sink.broken then Out(RW(o.rw.n, Some(IoError(op))), o.sink)
    else Out(RW(o.rw.n + |bytes|, None), Sink(o.sink.out + bytes, false))
  }

  function WriteI8(o: Out, v: Int8): (r: Out)
    ensures r == WriteBytes(o, BytesOf(ToUnsigned(v, 1), 1), "WriteInt8")
  {
    FitsWidths(v);
    WriteBytes(o, Integers.WriteTo(v, 1).0, "WriteInt8")
  }

  function WriteI16(o: Out, v: Int16): (r: Out)
    ensures r == WriteBytes(o, BytesOf(ToUnsigned(v, 2), 2), "WriteInt16")
  {
    FitsWidths(v);
    WriteBytes(o, Integers.WriteTo(v, 2).0, "WriteInt16")
  }

  function WriteI32(o: Out, v: Int32): (r: Out)
    ensures r == WriteBytes(o, BytesOf(ToUnsigned(v, 4), 4), "WriteInt32")
  {
    FitsWidths(v);
    WriteBytes(o, Integers.WriteTo(v, 4).0, "WriteInt32")
  }

  function WriteI64(o: Out, v: Int64): (r: Out)
    ensures r == WriteBytes(o, BytesOf(ToUnsigned(v, 8), 8), "WriteInt64")
  {
    FitsWidths(v);
    WriteBytes(o, Integers.WriteTo(v, 8).0, "WriteInt64")
  }

  /**
   * `WriteFloat32`: the four bytes of the IEEE-754 bits, most significant
   * first, or the error cases of every write.
   */
  function WriteF32(o: Out, v: Float32Bits): (r: Out)
    ensures o.rw.err.Some? ==> r == o
    ensures o.rw.err.None? && o.sink.broken ==> r == Out(RW(o.rw.n, Some(IoError("WriteFloat32"))), o.sink)
    ensures o.rw.err.None? && !o.sink.broken ==>
      r.rw == RW(o.rw.n + 4, None) && !r.sink.broken && |r.sink.out| == |o.sink.out| + 4 &&
      r.sink.out[..|o.sink.out|] == o.sink.out && ValueOf(r.sink.out[|o.sink.out|..]) == v
  {
    assert Pow256(4) == 0x1_0000_0000;
    ValueOfBytesOf(v, 4);
    var r := WriteBytes(o, BytesOf(v, 4), "WriteFloat32");
    assert !o.sink.broken ==> r.sink.out == o.sink.out + BytesOf(v, 4) || o.rw.err.Some?;
    r
  }

  /** `WriteFloat64`: the eight bytes of the bits, as `WriteF32` does for four. */
  function WriteF64(o: Out, v: Float64Bits): (r: Out)
    ensures o.rw.err.Some? ==> r == o
    ensures o.rw.err.None? && o.sink.broken ==> r == Out(RW(o.rw.n, Some(IoError("WriteFloat64"))), o.sink)
    ensures o.rw.err.None? && !o.sink.broken ==>
      r.rw == RW(o.rw.n + 8, None) && !r.sink.broken && |r.sink.out| == |o.sink.out| + 8 &&
      r.sink.out[..|o.sink.out|] == o.sink.out && ValueOf(r.sink.out[|o.sink.out|..]) == v
  {
    assert Pow256(8) == 0x1_0000_0000_0000_0000;
    ValueOfBytesOf(v, 8);
    var r := WriteBytes(o, BytesOf(v, 8), "WriteFloat64");
    assert !o.sink.broken ==> r.sink.out == o.sink.out + BytesOf(v, 8) || o.rw.err.Some?;
    r
  }

  /** `ReadFloat32` of what `WriteFloat32` appended gets the bits back and counts 4. */
  lemma FloatRoundTrip32(o: Out, v: Float32Bits, rw: RW, tail: seq<Byte>)
    requires o.rw.err.None? && !o.sink.broken && rw.err.None?
    ensures ReadF32(In(rw, WriteF32(o, v).sink.out[|o.sink.out|..] + tail)) == Step(v, In(RW(rw.n + 4, None), tail))
  {
    var bytes := WriteF32(o, v).sink.out[|o.sink.out|..];
    assert Pow256(4) == 0x1_0000_0000;
    BytesOfValueOf(bytes);
    assert (bytes + tail)[..4] == bytes && (bytes + tail)[4..] == tail;
  }

  /** `ReadFloat64` of what `WriteFloat64` appended gets the bits back and counts 8. */
  lemma FloatRoundTrip64(o: Out, v: Float64Bits, rw: RW, tail: seq<Byte>)
    requires o.rw.err.None? && !o.sink.broken && rw.err.None?
    ensures ReadF64(In(rw, WriteF64(o, v).sink.out[|o.sink.out|..] + tail)) == Step(v, In(RW(rw.n + 8, None), tail))
  {
    var bytes := WriteF64(o, v).sink.out[|o.sink.out|..];
    assert Pow256(8) == 0x1_0000_0000_0000_0000;
    BytesOfValueOf(bytes);
    assert (bytes + tail)[..8] == bytes && (bytes + tail)[8..] == tail;
  }

  /** A read of what was written gets the value back, whatever follows it. */
  lemma ReadIntWriteInt(rw: RW, v: int, k: nat, tail: seq<Byte>, op: string)
    requires k >= 1 && Fits(v, k) && rw.err.None?
    ensures ReadInt(In(rw, Encode(v, k) + tail), k, op) == Step(v, In(RW(rw.n + k, None), tail))
  {
    Integers.ReadWriteRoundTrip(v, k, tail);
  }

  /** A chain of writes to a healthy destination is one write of the concatenation. */
  lemma WriteBytesTwice(o: Out, a: seq<Byte>, b: seq<Byte>, op: string, op': string)
    requires o.rw.err.None? && !o.sink.broken
    ensures WriteBytes(WriteBytes(o, a, op), b, op') == WriteBytes(o, a + b, op')
  {
    assert o.sink.out + a + b == o.sink.out + (a + b);
  }

  /** After the first error nothing more is written or counted. */
  lemma WriteAfterError(o: Out, bytes: seq<Byte>, op: string)
    requires o.rw.err.Some?
    ensures WriteBytes(o, bytes, op) == o
  {
  }

  /** An input stream. */
  class Reader {
    var rest: seq<Byte>

    constructor(data: seq<Byte>)
      ensures rest == data
    {
      rest := data;
    }
  }

  /** An output stream. */
  class Writer {
    var out: seq<Byte>
    var broken: bool

    constructor(broken: bool)
      ensures out == [] && this.broken == broken
    {
      out := [];
      this.broken := broken;
    }

    function State(): Sink
      reads this
    {
      Sink(out, broken)
    }
  }

  class ReadWriter {
    var N: int
    var Err: Option<Error>

    constructor()
      ensures State() == Fresh
    {
      N := 0;
      Err := None;
    }

    function State(): RW
      reads this
    {
      RW(N, Err)
    }

    /** Hook for foreign codecs, with the nil test the comment describes. */
    method Must(n: int, err: Option<Error>)
      modifies this
      ensures State() == MustHook(old(State()), n, err)
    {
      if Err.Some? {
        return;
      }
      N := N + n;
      Err := err;
    }

    /** Hook for foreign calls that only return an error. */
    method Check(err: Option<Error>)
      modifies this
      ensures State() == CheckHook(old(State()), err)
    {
      if Err.None? {
        Err := err;
      }
    }

    /** A runtime panic inside a `ReadFrom`/`WriteTo`. */
    method Crash(reason: string)
      modifies this
      ensures State() == Raise(old(State()), reason)
    {
      if !(Err.Some? && Err.value.Panic?) {
        Err := Some(Error.Panic(reason));
      }
    }

    /** All bytes counted and the first error, unchanged. */
    method Result() returns (n: int, err: Option<Error>)
      ensures n == N && err == Err
    {
      n, err := N, Err;
    }

    method Reset()
      modifies this
      ensures State() == Fresh
    {
      N := 0;
      Err := None;
    }

    method ReadFixed(r: Reader, k: nat, op: string) returns (v: int)
      requires k >= 1
      modifies this, r
      ensures Step(v, In(State(), r.rest)) == ReadInt(In(old(State()), old(r.rest)), k, op)
    {
      if Err.Some? {
        return 0;
      }
      var t := Integers.ReadFrom(k, r.rest);
      r.rest := t.rest;
      if t.Failed? {
        Err := Some(IoError(op));
        return 0;
      }
      N := N + t.n;
      v := t.value;
    }

    method ReadInt8(r: Reader) returns (v: Int8)
      modifies this, r
      ensures Step(v, In(State(), r.rest)) == ReadI8(In(old(State()), old(r.rest)))
    {
      var x := ReadFixed(r, 1, "ReadInt8");
      FitsWidths(x);
      v := x;
    }

    method ReadInt16(r: Reader) returns (v: Int16)
      modifies this, r
      ensures Step(v, In(State(), r.rest)) == ReadI16(In(old(State()), old(r.rest)))
    {
      var x := ReadFixed(r, 2, "ReadInt16");
      FitsWidths(x);
      v := x;
    }

    method ReadInt32(r: Reader) returns (v: Int32)
      modifies this, r
      ensures Step(v, In(State(), r.rest)) == ReadI32(In(old(State()), old(r.rest)))
    {
      var x := ReadFixed(r, 4, "ReadInt32");
      FitsWidths(x);
      v := x;
    }

    method ReadInt64(r: Reader) returns (v: Int64)
      modifies this, r
      ensures Step(v, In(State(), r.rest)) == ReadI64(In(old(State()), old(r.rest)))
    {
      var x := ReadFixed(r, 8, "ReadInt64");
      FitsWidths(x);
      v := x;
    }

    method ReadRaw(r: Reader, k: nat, op: string) returns (v: nat)
      modifies this, r
      ensures Step(v, In(State(), r.rest)) == ReadBits(In(old(State()), old(r.rest)), k, op)
    {
      if Err.Some? {
        return 0;
      }
      if |r.rest| < k {
        r.rest := [];
        Err := Some(IoError(op));
        return 0;
      }
      v := ValueOf(r.rest[..k]);
      r.rest := r.rest[k..];
      N := N + k;
    }

    method ReadFloat32(r: Reader) returns (v: Float32Bits)
      modifies this, r
      ensures Step(v, In(State(), r.rest)) == ReadF32(In(old(State()), old(r.rest)))
    {
      var x := ReadRaw(r, 4, "ReadFloat32");
      assert Pow256(4) == 0x1_0000_0000;
      v := x;
    }

    method ReadFloat64(r: Reader) returns (v: Float64Bits)
      modifies this, r
      ensures Step(v, In(State(), r.rest)) == ReadF64(In(old(State()), old(r.rest)))
    {
      var x := ReadRaw(r, 8, "ReadFloat64");
      assert Pow256(8) == 0x1_0000_0000_0000_0000;
      v := x;
    }

    method ReadBytes(r: Reader, length: int) returns (v: seq<Byte>)
      modifies this, r
      ensures Step(v, In(State(), r.rest)) == ReadByteArray(In(old(State()), old(r.rest)), length)
    {
      if Err.Some? || length <= 0 {
        return [];
      }
      if |r.rest| < length {
        r.rest := [];
        Err := Some(IoError("ReadByteArray"));
        return [];
      }
      v := r.rest[..length];
      r.rest := r.rest[length..];
      N := N + length;
    }

    method Write(w: Writer, bytes: seq<Byte>, op: string)
      modifies this, w
      ensures Out(State(), w.State()) == WriteBytes(Out(old(State()), old(w.State())), bytes, op)
    {
      if Err.Some? {
        return;
      }
      if w.broken {
        Err := Some(IoError(op));
        return;
      }
      w.out := w.out + bytes;
      N := N + |bytes|;
    }

    method WriteInt8(w: Writer, value: Int8)
      modifies this, w
      ensures Out(State(), w.State()) == WriteI8(Out(old(State()), old(w.State())), value)
    {
      FitsWidths(value);
      Write(w, Integers.WriteTo(value, 1).0, "WriteInt8");
    }

    method WriteInt16(w: Writer, value: Int16)
      modifies this, w
      ensures Out(State(), w.State()) == WriteI16(Out(old(State()), old(w.State())), value)
    {
      FitsWidths(value);
      Write(w, Integers.WriteTo(value, 2).0, "WriteInt16");
    }

    method WriteInt32(w: Writer, value: Int32)
      modifies this, w
      ensures Out(State(), w.State()) == WriteI32(Out(old(State()), old(w.State())), value)
    {
      FitsWidths(value);
      Write(w, Integers.WriteTo(value, 4).0, "WriteInt32");
    }

    method WriteInt64(w: Writer, value: Int64)
      modifies this, w
      ensures Out(State(), w.State()) == WriteI64(Out(old(State()), old(w.State())), value)
    {
      FitsWidths(value);
      Write(w, Integers.WriteTo(value, 8).0, "WriteInt64");
    }

    method WriteFloat32(w: Writer, value: Float32Bits)
      modifies this, w
      ensures Out(State(), w.State()) == WriteF32(Out(old(State()), old(w.State())), value)
    {
      assert Pow256(4) == 0x1_0000_0000;
      Write(w, BytesOf(value, 4), "WriteFloat32");
    }

    method WriteFloat64(w: Writer, value: Float64Bits)
      modifies this, w
      ensures Out(State(), w.State()) == WriteF64(Out(old(State()), old(w.State())), value)
    {
      assert Pow256(8) == 0x1_0000_0000_0000_0000;
      Write(w, BytesOf(value, 8), "WriteFloat64");
    }

    method WriteByteArray(w: Writer, value: seq<Byte>)
      modifies this, w
      ensures Out(State(), w.State()) == WriteBytes(Out(old(State()), old(w.State())), value, "WriteByteArray")
    {
      Write(w, value, "WriteByteArray");
    }
  }
}
