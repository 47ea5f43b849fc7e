/**
 * The extra data of an object or vehicle spawn: a 32-bit value, followed by
 * three 16-bit speeds only when that value is non-zero.
 */
module ObjectDatas {
  import opened Opt
  import opened Integers
  import opened Must

  datatype ObjectData = ObjectData(data: Int32, speedX: Int16, speedY: Int16, speedZ: Int16)

  /** `ObjectData.ReadFrom` into o, with its own ReadWriter. */
  function ReadFrom(o: ObjectData, input: seq<Byte>): (r: Step<ObjectData>)
    ensures r.value.data == 0 ==> r.value == o.(data := 0)
    ensures r.st.rw.err.None? ==> r.st.rw.n == (if r.value.data == 0 then 4 else 10)
    ensures Advances(In(Fresh, input), r.st)
    ensures r.st.rw.err.Some? <==> |input| < 4 || (Decode(input[..4]) != 0 && |input| < 10)
  {
    var d := ReadI32(In(Fresh, input));
    if d.value == 0 then Step(o.(data := 0), d.st)
    else
      var x := ReadI16(d.st);
      var y := ReadI16(x.st);
      var z := ReadI16(y.st);
      Step(ObjectData(d.value, x.value, y.value, z.value), z.st)
  }

  /** The bytes `ObjectData.WriteTo` puts on the wire. */
  function Bytes(o: ObjectData): (bs: seq<Byte>)
    ensures |bs| == if o.data == 0 then 4 else 10
  {
    FitsWidths(o.data);
    FitsWidths(o.speedX);
    FitsWidths(o.speedY);
    FitsWidths(o.speedZ);
    if o.data == 0 then Encode(o.data, 4)
    else Encode(o.data, 4) + (Encode(o.speedX, 2) + (Encode(o.speedY, 2) + Encode(o.speedZ, 2)))
  }

  /** `ObjectData.WriteTo`, with its own ReadWriter. */
  function WriteTo(o: ObjectData, sink: Sink): (r: Out)
    ensures !sink.broken ==> r == Out(RW(|Bytes(o)|, None), Sink(sink.out + Bytes(o), false))
    ensures sink.broken ==> r == Out(RW(0, Some(IoError("WriteInt32"))), sink)
  {
    var w := WriteI32(Out(Fresh, sink), o.data);
    if o.data == 0 then w
    else WriteI16(WriteI16(WriteI16(w, o.speedX), o.speedY), o.speedZ)
  }

  /** What reading back an encoded value into `into` yields: a zero value carries no speeds. */
  function ReadBack(o: ObjectData, into: ObjectData): ObjectData
  {
    if o.data == 0 then into.(data := 0) else o
  }

  /** Reading back what was written restores the value and consumes exactly its bytes. */
  lemma ReadWriteRoundTrip(o: ObjectData, into: ObjectData, tail: seq<Byte>)
    ensures ReadFrom(into, Bytes(o) + tail) == Step(ReadBack(o, into), In(RW(|Bytes(o)|, None), tail))
  {
    FitsWidths(o.data);
    FitsWidths(o.speedX);
    FitsWidths(o.speedY);
    FitsWidths(o.speedZ);
    var rz := Encode(o.speedZ, 2) + tail;
    var ry := Encode(o.speedY, 2) + rz;
    var rx := Encode(o.speedX, 2) + ry;
    if o.data == 0 {
      ReadIntWriteInt(Fresh, o.data, 4, tail, "ReadInt32");
    } else {
      assert Bytes(o) + tail == Encode(o.data, 4) + rx;
      ReadIntWriteInt(Fresh, o.data, 4, rx, "ReadInt32");
      ReadIntWriteInt(RW(4, None), o.speedX, 2, ry, "ReadInt16");
      ReadIntWriteInt(RW(6, None), o.speedY, 2, rz, "ReadInt16");
      ReadIntWriteInt(RW(8, None), o.speedZ, 2, tail, "ReadInt16");
    }
  }

  /** `ObjectData.ReadFrom` on a stream: proved against `ReadFrom`. */
  method ReadObjectDataFrom(o: ObjectData, r: Reader) returns (o': ObjectData, n: int, err: Option<Error>)
    modifies r
    ensures Step(o', In(RW(n, err), r.rest)) == ReadFrom(o, old(r.rest))
  {
    var rw := new ReadWriter();
    var data := rw.ReadInt32(r);
    o' := o.(data := data);
    if data != 0 {
      var x := rw.ReadInt16(r);
      var y := rw.ReadInt16(r);
      var z := rw.ReadInt16(r);
      o' := o'.(speedX := x, speedY := y, speedZ := z);
    }
    n, err := rw.Result();
  }

  /** `ObjectData.WriteTo` on a stream: proved against `WriteTo`. */
  method WriteObjectDataTo(o: ObjectData, w: Writer) returns (n: int, err: Option<Error>)
    modifies w
    ensures Out(RW(n, err), w.State()) == WriteTo(o, old(w.State()))
  {
    var rw := new ReadWriter();
    rw.WriteInt32(w, o.data);
    if o.data != 0 {
      rw.WriteInt16(w, o.speedX);
      rw.WriteInt16(w, o.speedY);
      rw.WriteInt16(w, o.speedZ);
    }
    n, err := rw.Result();
  }
}
