/**
 * Chunk-section arithmetic of the login handler: how many 16-block
 * sections a column of a given height has, and the primary bit mask that
 * announces them in a chunk-data packet.
 */
module Sections {
  import opened Integers

  /** Go's `/` on integers truncates toward zero. */
  function Quot(a: int, b: int): (q: int)
    requires b > 0
    ensures a >= 0 ==> q == a / b
    ensures a < 0 ==> q == -((-a) / b)
  {
    if a >= 0 then a / b else -((-a) / b)
  }

  /** `int(height / 16)`, or 1 when that is 0. */
  function SectionCount(height: Int32): (s: int)
    ensures s != 0
  {
    var q := Quot(height, 16);
    if q == 0 then 1 else q
  }

  function Pow2(k: nat): (p: nat)
    ensures p >= 1
  {
    if k == 0 then 1 else 2 * Pow2(k - 1)
  }

  /**
   * `uint16(1<<uint(s) - 1)`: the shift and the subtraction are done in
   * `uint16`, so a shift by 16 or more gives 0 and the subtraction wraps
   * to 0xFFFF; a negative count becomes a huge `uint` shift, also 0.
   */
  function SectionMask(height: Int32): (m: int)
    ensures 0 <= m < 0x1_0000
  {
    var s := SectionCount(height);
    var shifted := if 0 <= s < 16 then Pow2(s) else 0;
    (shifted - 1) % 0x1_0000
  }

  /** The count is at least 1 exactly for heights above -16 (from -16 down the truncated quotient is negative). */
  lemma SectionCountPositive(height: Int32)
    ensures SectionCount(height) >= 1 <==> height > -16
  {
  }

  /** For non-negative heights the count grows with the height. */
  lemma SectionCountMonotone(h1: Int32, h2: Int32)
    requires 0 <= h1 <= h2
    ensures 1 <= SectionCount(h1) <= SectionCount(h2)
  {
  }

  /** The number of low bits set in `m` before the first clear bit. */
  function LowOnes(m: nat): (k: nat)
    decreases m
  {
    if m % 2 == 1 then 1 + LowOnes(m / 2) else 0
  }

  lemma {:induction false} LowOnesOfMask(k: nat)
    ensures LowOnes(Pow2(k) - 1) == k
  {
    if k > 0 {
      var p := Pow2(k - 1);
      var m := Pow2(k) - 1;
      assert m == 2 * (p - 1) + 1;
      assert m % 2 == 1 && m / 2 == p - 1;
      LowOnesOfMask(k - 1);
    }
  }

  /**
   * While the count stays within a `uint16`, the mask is exactly the
   * count's low bits: `SectionCount` ones and nothing above them.
   */
  lemma MaskHasCountBits(height: Int32)
    requires 1 <= SectionCount(height) <= 16
    ensures LowOnes(SectionMask(height)) == SectionCount(height)
    ensures SectionMask(height) == Pow2(SectionCount(height)) - 1
  {
    var s := SectionCount(height);
    if s == 16 {
      assert Pow2(16) == 0x1_0000 by {
        assert Pow2(4) == 16;
        assert Pow2(8) == 256 by { assert Pow2(8) == 16 * Pow2(4) by { Pow2Add(4, 4); } }
        assert Pow2(16) == 256 * Pow2(8) by { Pow2Add(8, 8); }
      }
    } else {
      Pow2Below16(s);
    }
    LowOnesOfMask(s);
  }

  lemma {:induction false} Pow2Add(a: nat, b: nat)
    ensures Pow2(a + b) == Pow2(a) * Pow2(b)
  {
    if a > 0 {
      Pow2Add(a - 1, b);
    }
  }

  lemma {:induction false} Pow2Below16(s: nat)
    requires s < 16
    ensures Pow2(s) <= 0x8000
    decreases 16 - s
  {
    if s < 15 {
      Pow2Below16(s + 1);
    } else {
      assert Pow2(4) == 16;
      assert Pow2(15) == 8 * Pow2(4) * Pow2(8) by { Pow2Add(3, 4); Pow2Add(7, 8); }
      assert Pow2(8) == 256 by { Pow2Add(4, 4); }
    }
  }

  /** Columns of 256 blocks or more (count >= 16) announce all sixteen sections. */
  lemma TallColumnsMaskAll(height: Int32)
    requires SectionCount(height) >= 16
    ensures SectionMask(height) == 0xFFFF
  {
  }

  /** The login handler's 64-block columns have 4 sections, mask 0x0F. */
  lemma LoginColumn()
    ensures SectionCount(64) == 4 && SectionMask(64) == 0x0F
  {
    assert Pow2(4) == 16;
  }
}
