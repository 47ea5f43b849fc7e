/**
 * Game-mode byte helpers: the low two bits carry the mode (survival,
 * creative, adventure) and bit 3 (0x8) is the hardcore flag.
 *
 * Go's `int` is 64-bit two's complement.  For a power of two `p`, bit
 * `k` of `d` is `(d / 2^k) % 2` with Dafny's Euclidean `/` and `%`
 * (floor division for a positive divisor), so `d & 0x8 == 0x8` is
 * `d % 16 >= 8`, `d & 0x3` is `d % 4`, and `d | 0x8` adds 8 exactly when
 * that bit is clear.
 */
module GameMode {
  import opened Integers

  const Survival: Int64 := 0
  const Creative: Int64 := 1
  const Adventure: Int64 := 2

  /** The three game modes the server knows. */
  predicate IsMode(d: Int64) { d == Survival || d == Creative || d == Adventure }

  /** `d & 0x8 == 0x8`. */
  predicate IsHardcore(d: Int64)
  {
    d % 16 >= 8
  }

  /** `d | 0x8` when `h`, `d & 0x3` otherwise. */
  function SetHardcore(d: Int64, h: bool): (r: Int64)
  {
    if h then
      if d % 16 >= 8 then d else d + 8
    else
      d % 4
  }

  /** Setting the flag makes the result hardcore, clearing it makes it not hardcore. */
  lemma SetThenIs(d: Int64, h: bool)
    ensures IsHardcore(SetHardcore(d, h)) == h
  {
  }

  /** Setting the flag touches bit 3 only: the low three bits and everything above bit 3 stay. */
  lemma SetKeepsOtherBits(d: Int64)
    ensures SetHardcore(d, true) % 8 == d % 8
    ensures SetHardcore(d, true) / 16 == d / 16
  {
  }

  /** Clearing keeps only the two mode bits. */
  lemma ClearKeepsMode(d: Int64)
    ensures 0 <= SetHardcore(d, false) < 4
    ensures SetHardcore(d, false) % 4 == d % 4
  {
  }

  /** Setting or clearing twice is the same as once. */
  lemma SetIdempotent(d: Int64, h: bool)
    ensures SetHardcore(SetHardcore(d, h), h) == SetHardcore(d, h)
  {
  }

  /** A plain game mode is not hardcore, and adding then removing the flag gives it back. */
  lemma ModeRoundTrip(d: Int64)
    requires IsMode(d)
    ensures !IsHardcore(d)
    ensures SetHardcore(d, true) == d + 8
    ensures SetHardcore(SetHardcore(d, true), false) == d
  {
  }
}
