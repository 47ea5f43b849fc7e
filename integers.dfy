/**
 * Fixed-width big-endian integers, as read and written by the `Int8`,
 * `Int16`, `Int32` and `Int64` wire types. Every value is stored in two's
 * complement, most significant byte first, in exactly 1, 2, 4 or 8 bytes.
 */
module Integers {

  /** One octet on the wire. */
  type Byte = b: int | 0 <= b < 256

  type Int8 = v: int | -0x80 <= v < 0x80
  type Int16 = v: int | -0x8000 <= v < 0x8000
  type Int32 = v: int | -0x8000_0000 <= v < 0x8000_0000
  type Int64 = v: int | -0x8000_0000_0000_0000 <= v < 0x8000_0000_0000_0000

  /** Raw bit patterns of `float32` and `float64` values: the codec only copies them. */
  type Float32Bits = v: int | 0 <= v < 0x1_0000_0000
  type Float64Bits = v: int | 0 <= v < 0x1_0000_0000_0000_0000

  const MaxInt32: int := 0x7FFF_FFFF

  /** 256 to the power k: the number of distinct k-byte patterns. */
  function Pow256(k: nat): (p: nat)
    ensures p >= 1
    ensures k >= 1 ==> p % 2 == 0 && p >= 256
  {
    if k == 0 then 1 else 256 * Pow256(k - 1)
  }

  /** The k-byte big-endian spelling of the unsigned value u. */
  function BytesOf(u: nat, k: nat): (s: seq<Byte>)
    requires u < Pow256(k)
    ensures |s| == k
  {
    if k == 0 then []
    else
      assert u / 256 < Pow256(k - 1) by { DivBound(u, Pow256(k - 1)); }
      BytesOf(u / 256, k - 1) + [u % 256]
  }

  /** The unsigned value of a big-endian byte string. */
  function ValueOf(s: seq<Byte>): (u: nat)
    ensures u < Pow256(|s|)
  {
    if |s| == 0 then 0
    else
      var p := ValueOf(s[..|s| - 1]);
      MulAddBound(p, s[|s| - 1], Pow256(|s| - 1));
      p * 256 + s[|s| - 1]
  }

  lemma DivBound(u: nat, p: nat)
    requires u < 256 * p
    ensures u / 256 < p
  {
  }

  lemma MulAddBound(p: nat, b: nat, q: nat)
    requires p < q && b < 256
    ensures p * 256 + b < 256 * q
  {
  }

  /** Decoding a spelled value gives the value back. */
  lemma {:induction false} ValueOfBytesOf(u: nat, k: nat)
    requires u < Pow256(k)
    ensures ValueOf(BytesOf(u, k)) == u
  {
    if k > 0 {
      assert u / 256 < Pow256(k - 1) by { DivBound(u, Pow256(k - 1)); }
      var s := BytesOf(u, k);
      assert s[..k - 1] == BytesOf(u / 256, k - 1);
      ValueOfBytesOf(u / 256, k - 1);
    }
  }

  /** Spelling a decoded byte string gives the byte string back. */
  lemma {:induction false} BytesOfValueOf(s: seq<Byte>)
    ensures BytesOf(ValueOf(s), |s|) == s
  {
    if |s| > 0 {
      var k := |s|;
      var p := ValueOf(s[..k - 1]);
      var u := ValueOf(s);
      assert u / 256 == p && u % 256 == s[k - 1];
      BytesOfValueOf(s[..k - 1]);
      assert BytesOf(u, k) == BytesOf(p, k - 1) + [s[k - 1]];
    }
  }

  /** The first byte of the spelling is the most significant one. */
  lemma {:induction false} BytesOfHead(u: nat, k: nat)
    requires k >= 1 && u < Pow256(k)
    ensures BytesOf(u, k)[0] == u / Pow256(k - 1)
  {
    if k > 1 {
      assert u / 256 < Pow256(k - 1) by { DivBound(u, Pow256(k - 1)); }
      BytesOfHead(u / 256, k - 1);
      DivDiv(u, 256, Pow256(k - 2));
    }
  }

  lemma DivDiv(u: nat, a: nat, b: nat)
    requires a > 0 && b > 0
    ensures u / a / b == u / (a * b)
  {
    var q := u / a;
    var r := u % a;
    var q2 := q / b;
    var r2 := q % b;
    assert u == q2 * (a * b) + (r2 * a + r) by {
      assert u == q * a + r;
      assert q == q2 * b + r2;
      calc {
        q * a;
        (q2 * b + r2) * a;
        { MulDistrib(q2 * b, r2, a); }
        q2 * b * a + r2 * a;
        { MulAssocComm(q2, b, a); }
        q2 * (a * b) + r2 * a;
      }
    }
    assert 0 <= r2 * a + r < a * b by {
      MulMono(r2, b - 1, a);
      MulDistrib(b, -1, a);
    }
    ModUnique(u, a * b, q2, r2 * a + r);
  }

  lemma MulDistrib(x: int, y: int, z: int)
    ensures (x + y) * z == x * z + y * z
  {
  }

  lemma MulAssocComm(x: int, y: int, z: int)
    ensures x * y * z == x * (z * y)
  {
  }

  lemma MulMono(x: int, y: int, z: int)
    requires 0 <= x <= y && z >= 0
    ensures 0 <= x * z <= y * z
  {
  }

  lemma MulAtLeast(d: int, p: int)
    requires d >= 1 && p > 0
    ensures d * p >= p
  {
  }

  /** Euclidean division is unique. */
  lemma ModUnique(a: int, p: int, q: int, r: int)
    requires p > 0 && a == q * p + r && 0 <= r < p
    ensures a / p == q && a % p == r
  {
    var q0 := a / p;
    var r0 := a % p;
    assert a == q0 * p + r0;
    if q0 > q {
      MulAtLeast(q0 - q, p);
      MulDistrib(q0, -q, p);
      assert false;
    } else if q0 < q {
      MulAtLeast(q - q0, p);
      MulDistrib(q, -q0, p);
      assert false;
    }
  }

  /** v fits in k bytes of two's complement. */
  predicate Fits(v: int, k: nat)
  {
    -(Pow256(k) / 2) <= v < Pow256(k) / 2
  }

  /** The unsigned pattern that stores v in k bytes. */
  function ToUnsigned(v: int, k: nat): (u: nat)
    requires Fits(v, k)
    ensures u < Pow256(k)
  {
    if v < 0 then v + Pow256(k) else v
  }

  /** The signed value a k-byte unsigned pattern stands for. */
  function FromUnsigned(u: nat, k: nat): (v: int)
    requires k >= 1 && u < Pow256(k)
    ensures Fits(v, k)
    ensures ToUnsigned(v, k) == u
    ensures u < Pow256(k) / 2 <==> v >= 0
  {
    if u >= Pow256(k) / 2 then u - Pow256(k) else u
  }

  /** Go's conversion of an arbitrary integer to a k-byte signed type (wraps around). */
  function Wrap(x: int, k: nat): (v: int)
    requires k >= 1
    ensures Fits(v, k)
    ensures ToUnsigned(v, k) == x % Pow256(k)
    ensures Fits(x, k) ==> v == x
  {
    ModOfFitting(x, k);
    FromUnsigned(x % Pow256(k), k)
  }

  lemma ModOfFitting(x: int, k: nat)
    requires k >= 1
    ensures Fits(x, k) ==> x % Pow256(k) == ToUnsigned(x, k)
  {
    if Fits(x, k) {
      if x >= 0 {
        ModSmall(x, Pow256(k));
      } else {
        ModSmall(x + Pow256(k), Pow256(k));
        ModShift(x, Pow256(k));
      }
    }
  }

  lemma ModSmall(x: int, p: int)
    requires 0 <= x < p
    ensures x % p == x
  {
  }

  lemma ModSmallIf(x: int, p: int)
    requires p > 0
    ensures 0 <= x < p ==> x % p == x
  {
  }

  lemma ModShift(x: int, p: int)
    requires p > 0
    ensures (x + p) % p == x % p
  {
    var q := x / p;
    var r := x % p;
    assert x + p == (q + 1) * p + r by { MulDistrib(q, 1, p); }
    ModUnique(x + p, p, q + 1, r);
  }

  /** Go's conversion of an arbitrary integer to a k-byte unsigned type (wraps around). */
  function WrapUnsigned(x: int, k: nat): (u: nat)
    ensures u < Pow256(k)
    ensures 0 <= x < Pow256(k) ==> u == x
  {
    ModSmallIf(x, Pow256(k));
    x % Pow256(k)
  }

  /** The k bytes that store v, big-endian. */
  function Encode(v: int, k: nat): (s: seq<Byte>)
    requires Fits(v, k)
    ensures |s| == k
  {
    BytesOf(ToUnsigned(v, k), k)
  }

  /** The signed value stored in a byte string. */
  function Decode(s: seq<Byte>): (v: int)
    requires |s| >= 1
    ensures Fits(v, |s|)
  {
    FromUnsigned(ValueOf(s), |s|)
  }

  lemma DecodeEncode(v: int, k: nat)
    requires k >= 1 && Fits(v, k)
    ensures Decode(Encode(v, k)) == v
  {
    ValueOfBytesOf(ToUnsigned(v, k), k);
  }

  lemma EncodeDecode(s: seq<Byte>)
    requires |s| >= 1
    ensures Encode(Decode(s), |s|) == s
  {
    BytesOfValueOf(s);
  }

  /** Result of a `ReadFrom`: the value, the byte count reported, and the stream left over. */
  datatype Decoded<T> =
    | Decoded(value: T, n: int, rest: seq<Byte>)
    | Failed(n: int, rest: seq<Byte>)

  /**
   * `ReadFrom` of a k-byte integer: an input shorter than k bytes is an error
   * reporting 0 bytes (the short input is drained); otherwise the first k bytes
   * are consumed and k is reported.
   */
  function ReadFrom(k: nat, s: seq<Byte>): (r: Decoded<int>)
    requires k >= 1
    ensures r.Failed? <==> |s| < k
    ensures r.Failed? ==> r.n == 0 && r.rest == []
    ensures r.Decoded? ==> r.n == k && Fits(r.value, k) && s == Encode(r.value, k) + r.rest
  {
    if |s| < k then Failed(0, [])
    else
      EncodeDecode(s[..k]);
      Decoded(Decode(s[..k]), k, s[k..])
  }

  /** `WriteTo` of a k-byte integer: the bytes written and the count reported. */
  function WriteTo(v: int, k: nat): (r: (seq<Byte>, int))
    requires k >= 1 && Fits(v, k)
    ensures r.1 == k == |r.0|
    ensures Decode(r.0) == v
  {
    DecodeEncode(v, k);
    (Encode(v, k), k)
  }

  /** The encoding is big-endian: the first byte written is the most significant. */
  lemma WriteToBigEndian(v: int, k: nat)
    requires k >= 1 && Fits(v, k)
    ensures WriteTo(v, k).0[0] == ToUnsigned(v, k) / Pow256(k - 1)
    ensures WriteTo(v, k).0[k - 1] == ToUnsigned(v, k) % 256
  {
    BytesOfHead(ToUnsigned(v, k), k);
  }

  /** Reading back what was written yields the value and leaves the rest of the stream. */
  lemma ReadWriteRoundTrip(v: int, k: nat, tail: seq<Byte>)
    requires k >= 1 && Fits(v, k)
    ensures ReadFrom(k, WriteTo(v, k).0 + tail) == Decoded(v, k, tail)
  {
    var s := Encode(v, k) + tail;
    assert s[..k] == Encode(v, k);
    DecodeEncode(v, k);
  }

  lemma FitsWidths(v: int)
    ensures Fits(v, 1) <==> -0x80 <= v < 0x80
    ensures Fits(v, 2) <==> -0x8000 <= v < 0x8000
    ensures Fits(v, 4) <==> -0x8000_0000 <= v < 0x8000_0000
    ensures Fits(v, 8) <==> -0x8000_0000_0000_0000 <= v < 0x8000_0000_0000_0000
  {
    assert Pow256(1) == 0x100;
    assert Pow256(2) == 0x1_0000;
    assert Pow256(4) == 0x1_0000_0000;
    assert Pow256(8) == 0x1_0000_0000_0000_0000;
  }
}
