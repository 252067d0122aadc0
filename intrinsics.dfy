/**
 * Model of `_lrotl` from Dependencies/Utility/Utility/intrin_compat.h: the
 * portable 32-bit rotate-left used on platforms without the MSVC intrinsic.
 *
 * The C parameter `int shift` is modelled by its 32-bit two's-complement bit
 * pattern (`bv32`), so that `shift & 31` is exactly the C expression.
 */
module Intrinsics {

  /** The two-shift expression of the portable fallback, for `0 < k < 32`. */
  function ShiftOr(value: bv32, k: bv32): bv32
    requires 0 < k < 32
  {
    (value << k) | (value >> (32 - k))
  }

  /**
   * The rotation computed when the compiler offers
   * `__builtin_rotateleft32`: rotate by the shift taken modulo 32, the
   * identity when that is zero.
   */
  function RotateLeft(value: bv32, shift: bv32): bv32
  {
    var k := shift & 31;
    if k == 0 then value else ShiftOr(value, k)
  }

  /**
   * The fallback: `shift &= 31`, then the two-shift expression. For a masked
   * shift of 0 it would evaluate `value >> 32`, which C++ leaves undefined,
   * hence the precondition; on every other shift it is `shift & 31` one-place
   * rotations, and so agrees with the builtin.
   */
  function RotateLeftFallback(value: bv32, shift: bv32): (r: bv32)
    requires shift & 31 != 0
    ensures r == RotateTimes(value, shift & 31)
    ensures r == RotateLeft(value, shift)
  {
    RotateLeftIsRepeatedRotation(value, shift & 31);
    ShiftOr(value, shift & 31)
  }

  /**
   * The count of the fallback's right shift: `32 - shift` once `shift` has
   * been masked. It reaches the operand width, where C++ leaves the shift
   * undefined, exactly when the masked shift is 0.
   */
  function FallbackRightShiftCount(shift: bv32): (n: int)
    ensures 1 <= n <= 32
    ensures n == 32 <==> shift & 31 == 0
  {
    32 - ((shift & 31) as int)
  }

  /** A shift by 0, by 32 or by -32 sends the fallback into the undefined shift. */
  lemma FallbackShiftsByWidth()
    ensures FallbackRightShiftCount(0) == 32
    ensures FallbackRightShiftCount(32) == 32
    ensures FallbackRightShiftCount(0xFFFF_FFE0) == 32
  {
  }

  // ---------------------------------------------------------------------
  // An independent reference: rotation as repeated one-place rotation.

  /** Rotate by one place: bit 31 re-enters at bit 0. */
  function RotateOnce(v: bv32): bv32 { (v << 1) | (v >> 31) }

  /** Rotate by `n` places, one place at a time. */
  function RotateTimes(v: bv32, n: bv32): bv32
    decreases n
  {
    if n == 0 then v else RotateOnce(RotateTimes(v, n - 1))
  }

  /** Bit `i` of `v` is set. */
  predicate Bit(v: bv32, i: bv32)
    requires i < 32
  {
    (v >> i) & 1 == 1
  }

  /**
   * One more place of shift is one more one-place rotation. The solver settles
   * each fixed shift amount by bit-blasting; with a symbolic shift amount it
   * does not, so the proof goes through one instance per masked shift.
   */
  lemma RotateLeftStep(v: bv32, k: bv32)
    requires k < 32
    ensures RotateLeft(v, k + 1) == RotateOnce(RotateLeft(v, k))
  {
    if k == 0 {
      StepAt0(v);
    } else if k == 1 {
      StepAt1(v);
    } else if k == 2 {
      StepAt2(v);
    } else if k == 3 {
      StepAt3(v);
    } else if k == 4 {
      StepAt4(v);
    } else if k == 5 {
      StepAt5(v);
    } else if k == 6 {
      StepAt6(v);
    } else if k == 7 {
      StepAt7(v);
    } else if k == 8 {
      StepAt8(v);
    } else if k == 9 {
      StepAt9(v);
    } else if k == 10 {
      StepAt10(v);
    } else if k == 11 {
      StepAt11(v);
    } else if k == 12 {
      StepAt12(v);
    } else if k == 13 {
      StepAt13(v);
    } else if k == 14 {
      StepAt14(v);
    } else if k == 15 {
      StepAt15(v);
    } else if k == 16 {
      StepAt16(v);
    } else if k == 17 {
      StepAt17(v);
    } else if k == 18 {
      StepAt18(v);
    } else if k == 19 {
      StepAt19(v);
    } else if k == 20 {
      StepAt20(v);
    } else if k == 21 {
      StepAt21(v);
    } else if k == 22 {
      StepAt22(v);
    } else if k == 23 {
      StepAt23(v);
    } else if k == 24 {
      StepAt24(v);
    } else if k == 25 {
      StepAt25(v);
    } else if k == 26 {
      StepAt26(v);
    } else if k == 27 {
      StepAt27(v);
    } else if k == 28 {
      StepAt28(v);
    } else if k == 29 {
      StepAt29(v);
    } else if k == 30 {
      StepAt30(v);
    } else {
      StepAt31(v);
    }
  }

  lemma StepAt0(v: bv32) ensures RotateLeft(v, 1) == RotateOnce(RotateLeft(v, 0)) {}
  lemma StepAt1(v: bv32) ensures RotateLeft(v, 2) == RotateOnce(RotateLeft(v, 1)) {}
  lemma StepAt2(v: bv32) ensures RotateLeft(v, 3) == RotateOnce(RotateLeft(v, 2)) {}
  lemma StepAt3(v: bv32) ensures RotateLeft(v, 4) == RotateOnce(RotateLeft(v, 3)) {}
  lemma StepAt4(v: bv32) ensures RotateLeft(v, 5) == RotateOnce(RotateLeft(v, 4)) {}
  lemma StepAt5(v: bv32) ensures RotateLeft(v, 6) == RotateOnce(RotateLeft(v, 5)) {}
  lemma StepAt6(v: bv32) ensures RotateLeft(v, 7) == RotateOnce(RotateLeft(v, 6)) {}
  lemma StepAt7(v: bv32) ensures RotateLeft(v, 8) == RotateOnce(RotateLeft(v, 7)) {}
  lemma StepAt8(v: bv32) ensures RotateLeft(v, 9) == RotateOnce(RotateLeft(v, 8)) {}
  lemma StepAt9(v: bv32) ensures RotateLeft(v, 10) == RotateOnce(RotateLeft(v, 9)) {}
  lemma StepAt10(v: bv32) ensures RotateLeft(v, 11) == RotateOnce(RotateLeft(v, 10)) {}
  lemma StepAt11(v: bv32) ensures RotateLeft(v, 12) == RotateOnce(RotateLeft(v, 11)) {}
  lemma StepAt12(v: bv32) ensures RotateLeft(v, 13) == RotateOnce(RotateLeft(v, 12)) {}
  lemma StepAt13(v: bv32) ensures RotateLeft(v, 14) == RotateOnce(RotateLeft(v, 13)) {}
  lemma StepAt14(v: bv32) ensures RotateLeft(v, 15) == RotateOnce(RotateLeft(v, 14)) {}
  lemma StepAt15(v: bv32) ensures RotateLeft(v, 16) == RotateOnce(RotateLeft(v, 15)) {}
  lemma StepAt16(v: bv32) ensures RotateLeft(v, 17) == RotateOnce(RotateLeft(v, 16)) {}
  lemma StepAt17(v: bv32) ensures RotateLeft(v, 18) == RotateOnce(RotateLeft(v, 17)) {}
  lemma StepAt18(v: bv32) ensures RotateLeft(v, 19) == RotateOnce(RotateLeft(v, 18)) {}
  lemma StepAt19(v: bv32) ensures RotateLeft(v, 20) == RotateOnce(RotateLeft(v, 19)) {}
  lemma StepAt20(v: bv32) ensures RotateLeft(v, 21) == RotateOnce(RotateLeft(v, 20)) {}
  lemma StepAt21(v: bv32) ensures RotateLeft(v, 22) == RotateOnce(RotateLeft(v, 21)) {}
  lemma StepAt22(v: bv32) ensures RotateLeft(v, 23) == RotateOnce(RotateLeft(v, 22)) {}
  lemma StepAt23(v: bv32) ensures RotateLeft(v, 24) == RotateOnce(RotateLeft(v, 23)) {}
  lemma StepAt24(v: bv32) ensures RotateLeft(v, 25) == RotateOnce(RotateLeft(v, 24)) {}
  lemma StepAt25(v: bv32) ensures RotateLeft(v, 26) == RotateOnce(RotateLeft(v, 25)) {}
  lemma StepAt26(v: bv32) ensures RotateLeft(v, 27) == RotateOnce(RotateLeft(v, 26)) {}
  lemma StepAt27(v: bv32) ensures RotateLeft(v, 28) == RotateOnce(RotateLeft(v, 27)) {}
  lemma StepAt28(v: bv32) ensures RotateLeft(v, 29) == RotateOnce(RotateLeft(v, 28)) {}
  lemma StepAt29(v: bv32) ensures RotateLeft(v, 30) == RotateOnce(RotateLeft(v, 29)) {}
  lemma StepAt30(v: bv32) ensures RotateLeft(v, 31) == RotateOnce(RotateLeft(v, 30)) {}
  lemma StepAt31(v: bv32) ensures RotateLeft(v, 32) == RotateOnce(RotateLeft(v, 31)) {}

  /** The shift expression agrees with rotating one place at a time. */
  lemma {:induction false} RotateLeftIsRepeatedRotation(v: bv32, k: bv32)
    requires k <= 32
    ensures RotateLeft(v, k) == RotateTimes(v, k)
    decreases k
  {
    if k != 0 {
      RotateLeftIsRepeatedRotation(v, k - 1);
      RotateLeftStep(v, k - 1);
    }
  }

  /** Only the low five bits of the shift matter: `s` and `s + 32` agree. */
  lemma RotateLeftUsesLowBits(value: bv32, shift: bv32)
    ensures RotateLeft(value, shift) == RotateLeft(value, shift & 31)
    ensures RotateLeft(value, shift + 32) == RotateLeft(value, shift)
  {
  }

  /** A full turn of 32 one-place rotations is the identity. */
  lemma RotateTimesFullTurn(v: bv32)
    ensures RotateTimes(v, 32) == v
  {
    RotateLeftIsRepeatedRotation(v, 32);
  }

  /** One-place rotations add up. */
  lemma {:induction false} RotateTimesAdd(v: bv32, a: bv32, b: bv32)
    requires a <= 32 && b <= 32
    ensures RotateTimes(RotateTimes(v, a), b) == RotateTimes(v, a + b)
    decreases b
  {
    if b != 0 {
      RotateTimesAdd(v, a, b - 1);
      assert a + b - 1 == a + (b - 1);
    }
  }

  // ---------------------------------------------------------------------
  // Where each bit goes.

  lemma OnceBit(v: bv32, i: bv32)
    requires i < 32
    ensures Bit(RotateOnce(v), (i + 1) & 31) == Bit(v, i)
  {
  }

  lemma {:induction false} TimesBit(v: bv32, n: bv32, i: bv32)
    requires i < 32
    ensures Bit(RotateTimes(v, n), (i + n) & 31) == Bit(v, i)
    decreases n
  {
    if n != 0 {
      TimesBit(v, n - 1, i);
      OnceBit(RotateTimes(v, n - 1), (i + (n - 1)) & 31);
    }
  }

  lemma MaskedSum(i: bv32, shift: bv32)
    ensures (i + (shift & 31)) & 31 == (i + shift) & 31
  {
  }

  /** Bit `i` of `value` ends up at bit `(i + shift) mod 32`; no bit is lost. */
  lemma RotateLeftMovesBit(value: bv32, shift: bv32, i: bv32)
    requires i < 32
    ensures Bit(RotateLeft(value, shift), (i + shift) & 31) == Bit(value, i)
  {
    RotateLeftUsesLowBits(value, shift);
    RotateLeftIsRepeatedRotation(value, shift & 31);
    TimesBit(value, shift & 31, i);
    MaskedSum(i, shift);
  }

  lemma MaskedAdd(a: bv32, b: bv32)
    ensures (a & 31) + (b & 31) < 32 ==> (a + b) & 31 == (a & 31) + (b & 31)
    ensures (a & 31) + (b & 31) >= 32 ==> (a + b) & 31 == (a & 31) + (b & 31) - 32
  {
  }

  /** Rotating by `a` and then by `b` is rotating by `(a + b) & 31`. */
  lemma RotateLeftCompose(value: bv32, a: bv32, b: bv32)
    ensures RotateLeft(RotateLeft(value, a), b) == RotateLeft(value, (a + b) & 31)
  {
    var ka, kb := a & 31, b & 31;
    var m := (a + b) & 31;
    var once := RotateLeft(value, a);
    RotateLeftUsesLowBits(value, a);
    RotateLeftUsesLowBits(once, b);
    RotateLeftIsRepeatedRotation(value, ka);
    RotateLeftIsRepeatedRotation(once, kb);
    RotateTimesAdd(value, ka, kb);
    MaskedAdd(a, b);
    RotateLeftIsRepeatedRotation(value, m);
    if ka + kb >= 32 {
      RotateTimesAdd(value, 32, m);
      RotateTimesFullTurn(value);
      assert 32 + m == ka + kb;
    }
  }

  /** Rotating back by `32 - shift` restores the value. */
  lemma RotateLeftInvertible(value: bv32, shift: bv32)
    ensures RotateLeft(RotateLeft(value, shift), 32 - shift) == value
  {
    RotateLeftCompose(value, shift, 32 - shift);
    assert (shift + (32 - shift)) & 31 == 0;
  }

  // ---------------------------------------------------------------------
  // The number of set bits.

  /** Number of set bits of `v` at positions `lo .. hi-1`. */
  function CountBits(v: bv32, lo: bv32, hi: bv32): nat
    requires hi <= 32
    decreases hi
  {
    if hi <= lo then 0 else CountBits(v, lo, hi - 1) + (if Bit(v, hi - 1) then 1 else 0)
  }

  function PopCount(v: bv32): nat { CountBits(v, 0, 32) }

  lemma {:induction false} CountBitsShifted(v: bv32, lo: bv32, hi: bv32)
    requires lo <= hi <= 31
    ensures CountBits(RotateOnce(v), lo + 1, hi + 1) == CountBits(v, lo, hi)
    decreases hi
  {
    if lo < hi {
      CountBitsShifted(v, lo, hi - 1);
      OnceBit(v, hi - 1);
    }
  }

  lemma {:induction false} CountBitsLowSplit(v: bv32, hi: bv32)
    requires 1 <= hi <= 32
    ensures CountBits(v, 0, hi) == (if Bit(v, 0) then 1 else 0) + CountBits(v, 1, hi)
    decreases hi
  {
    if hi > 1 {
      CountBitsLowSplit(v, hi - 1);
    }
  }

  lemma PopCountOnce(v: bv32)
    ensures PopCount(RotateOnce(v)) == PopCount(v)
  {
    CountBitsLowSplit(RotateOnce(v), 32);
    CountBitsShifted(v, 0, 31);
    OnceBit(v, 31);
  }

  lemma {:induction false} PopCountTimes(v: bv32, n: bv32)
    ensures PopCount(RotateTimes(v, n)) == PopCount(v)
    decreases n
  {
    if n != 0 {
      PopCountTimes(v, n - 1);
      PopCountOnce(RotateTimes(v, n - 1));
    }
  }

  /** Rotation preserves the number of set bits. */
  lemma RotateLeftPreservesPopCount(value: bv32, shift: bv32)
    ensures PopCount(RotateLeft(value, shift)) == PopCount(value)
  {
    RotateLeftUsesLowBits(value, shift);
    RotateLeftIsRepeatedRotation(value, shift & 31);
    PopCountTimes(value, shift & 31);
  }
}
