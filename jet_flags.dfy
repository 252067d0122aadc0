// The state flags of `JetAIUpdate`,
// Generals/Code/GameEngine/Include/GameLogic/Module/JetAIUpdate.h.
//
// `m_flags` is a 32-bit `Int`; the model holds its bit pattern as a `bv32`.
// Flag `f` lives in bit `f` of the mask (`1 << f`), and only bits 0 to 8 are
// ever used, so the sign bit plays no part.

/**
 * Setting and clearing the bits of a mask in a 32-bit word, and the facts
 * about it that do not depend on which mask it is.
 */
module BitMasks {

  /** Setting (`v`) or clearing the bits of the mask `m` in `x`. */
  function SetBits(x: bv32, m: bv32, v: bool): bv32
  {
    if v then x | m else x & !m
  }

  // Each fact below is first stated for a fixed `v` against a plain
  // bit-vector expression, then combined; bit-vector goals with the setting
  // left symbolic are far harder for the solver than these small ones.

  lemma Setting(x: bv32, m: bv32)
    ensures SetBits(x, m, true) == x | m
  {
  }

  lemma Clearing(x: bv32, m: bv32)
    ensures SetBits(x, m, false) == x & !m
  {
  }

  /** The bits outside `m` are not touched. */
  lemma SetBitsOther(x: bv32, m: bv32, n: bv32, v: bool)
    requires m & n == 0
    ensures SetBits(x, m, v) & n == x & n
  {
    if v {
      Setting(x, m);
      OrOutside(x, m, n);
    } else {
      Clearing(x, m);
      AndOutside(x, m, n);
    }
  }

  lemma OrOutside(x: bv32, m: bv32, n: bv32)
    requires m & n == 0
    ensures (x | m) & n == x & n
  {
  }

  lemma AndOutside(x: bv32, m: bv32, n: bv32)
    requires m & n == 0
    ensures (x & !m) & n == x & n
  {
  }

  /** The bits of a non-empty `m` then read as set or clear. */
  lemma SetBitsSelf(x: bv32, m: bv32, v: bool)
    requires m != 0
    ensures (SetBits(x, m, v) & m != 0) == v
  {
    if v {
      Setting(x, m);
      OrInside(x, m);
    } else {
      Clearing(x, m);
      AndInside(x, m);
    }
  }

  lemma OrInside(x: bv32, m: bv32)
    requires m != 0
    ensures (x | m) & m == m
  {
  }

  lemma AndInside(x: bv32, m: bv32)
    ensures (x & !m) & m == 0
  {
  }

  /** Setting a single bit to what it already holds changes nothing. */
  lemma SetBitsSame(x: bv32, m: bv32)
    requires m != 0 && m & (m - 1) == 0
    ensures SetBits(x, m, x & m != 0) == x
  {
    if x & m != 0 {
      Setting(x, m);
      OrPresent(x, m);
    } else {
      Clearing(x, m);
      AndAbsent(x, m);
    }
  }

  lemma OrPresent(x: bv32, m: bv32)
    requires m != 0 && m & (m - 1) == 0 && x & m != 0
    ensures x | m == x
  {
  }

  lemma AndAbsent(x: bv32, m: bv32)
    requires x & m == 0
    ensures x & !m == x
  {
  }

  /** The second of two settings of `m` wins. */
  lemma SetBitsTwice(x: bv32, m: bv32, v: bool, w: bool)
    ensures SetBits(SetBits(x, m, v), m, w) == SetBits(x, m, w)
  {
    if v && w {
      TwiceOnOn(x, m);
    } else if v {
      TwiceOnOff(x, m);
    } else if w {
      TwiceOffOn(x, m);
    } else {
      TwiceOffOff(x, m);
    }
  }

  lemma TwiceOnOn(x: bv32, m: bv32)
    ensures SetBits(SetBits(x, m, true), m, true) == SetBits(x, m, true)
  {
    Setting(x, m);
    Setting(x | m, m);
    OrOr(x, m);
  }

  lemma TwiceOnOff(x: bv32, m: bv32)
    ensures SetBits(SetBits(x, m, true), m, false) == SetBits(x, m, false)
  {
    Setting(x, m);
    Clearing(x | m, m);
    Clearing(x, m);
    OrAnd(x, m);
  }

  lemma TwiceOffOn(x: bv32, m: bv32)
    ensures SetBits(SetBits(x, m, false), m, true) == SetBits(x, m, true)
  {
    Clearing(x, m);
    Setting(x & !m, m);
    Setting(x, m);
    AndOr(x, m);
  }

  lemma TwiceOffOff(x: bv32, m: bv32)
    ensures SetBits(SetBits(x, m, false), m, false) == SetBits(x, m, false)
  {
    Clearing(x, m);
    Clearing(x & !m, m);
    AndAnd(x, m);
  }

  lemma OrOr(x: bv32, m: bv32)
    ensures (x | m) | m == x | m
  {
  }

  lemma AndOr(x: bv32, m: bv32)
    ensures (x & !m) | m == x | m
  {
  }

  lemma OrAnd(x: bv32, m: bv32)
    ensures (x | m) & !m == x & !m
  {
  }

  lemma AndAnd(x: bv32, m: bv32)
    ensures (x & !m) & !m == x & !m
  {
  }

  /** Settings of disjoint masks commute. */
  lemma SetBitsCommute(x: bv32, m: bv32, v: bool, n: bv32, w: bool)
    requires m & n == 0
    ensures SetBits(SetBits(x, m, v), n, w) == SetBits(SetBits(x, n, w), m, v)
  {
    if v && w {
      CommuteOnOn(x, m, n);
    } else if v {
      CommuteOnOff(x, m, n);
    } else if w {
      CommuteOnOff(x, n, m);
    } else {
      CommuteOffOff(x, m, n);
    }
  }

  lemma CommuteOnOn(x: bv32, m: bv32, n: bv32)
    ensures SetBits(SetBits(x, m, true), n, true) == SetBits(SetBits(x, n, true), m, true)
  {
    Setting(x, m);
    Setting(x, n);
    Setting(x | m, n);
    Setting(x | n, m);
    CommuteOrOr(x, m, n);
  }

  lemma CommuteOnOff(x: bv32, m: bv32, n: bv32)
    requires m & n == 0
    ensures SetBits(SetBits(x, m, true), n, false) == SetBits(SetBits(x, n, false), m, true)
  {
    Setting(x, m);
    Clearing(x, n);
    Clearing(x | m, n);
    Setting(x & !n, m);
    CommuteOrAnd(x, m, n);
  }

  lemma CommuteOffOff(x: bv32, m: bv32, n: bv32)
    ensures SetBits(SetBits(x, m, false), n, false) == SetBits(SetBits(x, n, false), m, false)
  {
    Clearing(x, m);
    Clearing(x, n);
    Clearing(x & !m, n);
    Clearing(x & !n, m);
    CommuteAndAnd(x, m, n);
  }

  lemma CommuteOrOr(x: bv32, m: bv32, n: bv32)
    ensures (x | m) | n == (x | n) | m
  {
  }

  lemma CommuteOrAnd(x: bv32, m: bv32, n: bv32)
    requires m & n == 0
    ensures (x | m) & !n == (x & !n) | m
  {
  }

  lemma CommuteAndAnd(x: bv32, m: bv32, n: bv32)
    ensures (x & !m) & !n == (x & !n) & !m
  {
  }
}

module JetFlags {
  import opened BitMasks

  /** `FlagType`, in declaration order: the bit numbers 0 to 8. */
  datatype Flag =
    | HasPendingCommand
    | AllowAirLoco
    | HasProducerLocation
    | TakeoffInProgress
    | LandingInProgress
    | UseSpecialReturnLoco
    | AllowCircling
    | AllowInterruptAndResumeOfCurStateForReload
    | TaxiInProgress

  /** The enumerator's value, which is also its bit number. */
  function BitNumber(f: Flag): (n: bv32)
    ensures n < 9
  {
    match f
    case HasPendingCommand => 0
    case AllowAirLoco => 1
    case HasProducerLocation => 2
    case TakeoffInProgress => 3
    case LandingInProgress => 4
    case UseSpecialReturnLoco => 5
    case AllowCircling => 6
    case AllowInterruptAndResumeOfCurStateForReload => 7
    case TaxiInProgress => 8
  }

  /** `1 << f`, written out per flag. */
  function Mask(f: Flag): bv32
  {
    match f
    case HasPendingCommand => 0x001
    case AllowAirLoco => 0x002
    case HasProducerLocation => 0x004
    case TakeoffInProgress => 0x008
    case LandingInProgress => 0x010
    case UseSpecialReturnLoco => 0x020
    case AllowCircling => 0x040
    case AllowInterruptAndResumeOfCurStateForReload => 0x080
    case TaxiInProgress => 0x100
  }

  /** The written-out masks are the shifts `1 << f` of the source. */
  lemma MaskIsShift(f: Flag)
    ensures Mask(f) == 1 << BitNumber(f)
  {
  }

  /** The bits that belong to some flag, 0 to 8. */
  const FlagBits: bv32 := 0x1FF

  /** `getFlag` on a bit pattern: `(flags & (1 << f)) != 0`. */
  predicate Test(flags: bv32, f: Flag)
  {
    flags & Mask(f) != 0
  }

  /** `setFlag` on a bit pattern: `flags |= 1 << f` to set, `flags &= ~(1 << f)` to clear. */
  function Set(flags: bv32, f: Flag, v: bool): bv32
  {
    SetBits(flags, Mask(f), v)
  }

  /** Each flag has one bit, inside `FlagBits`, and different flags have different bits. */
  lemma MasksDisjoint(f: Flag, g: Flag)
    ensures Mask(f) != 0 && Mask(f) & (Mask(f) - 1) == 0
    ensures Mask(f) & !FlagBits == 0
    ensures f != g ==> Mask(f) & Mask(g) == 0
  {
  }

  /** After `setFlag(f, v)`, `getFlag(f)` is `v`. */
  lemma SetThenGet(flags: bv32, f: Flag, v: bool)
    ensures Test(Set(flags, f, v), f) == v
  {
    MasksDisjoint(f, f);
    SetBitsSelf(flags, Mask(f), v);
  }

  /** `setFlag(f, v)` leaves every other flag as it was. */
  lemma SetKeepsOtherFlags(flags: bv32, f: Flag, v: bool, g: Flag)
    requires f != g
    ensures Test(Set(flags, f, v), g) == Test(flags, g)
  {
    MasksDisjoint(f, g);
    SetBitsOther(flags, Mask(f), Mask(g), v);
  }

  /** `setFlag` never touches the bits of `m_flags` above the flags. */
  lemma SetKeepsOtherBits(flags: bv32, f: Flag, v: bool)
    ensures Set(flags, f, v) & !FlagBits == flags & !FlagBits
  {
    MasksDisjoint(f, f);
    SetBitsOther(flags, Mask(f), !FlagBits, v);
  }

  /** Setting a flag to the value it already has changes nothing. */
  lemma SetUnchanged(flags: bv32, f: Flag)
    ensures Set(flags, f, Test(flags, f)) == flags
  {
    MasksDisjoint(f, f);
    SetBitsSame(flags, Mask(f));
  }

  /** Setting the same flag twice: the second value wins. */
  lemma SetTwice(flags: bv32, f: Flag, v: bool, w: bool)
    ensures Set(Set(flags, f, v), f, w) == Set(flags, f, w)
  {
    SetBitsTwice(flags, Mask(f), v, w);
  }

  /** Setters of different flags commute. */
  lemma SetCommutes(flags: bv32, f: Flag, v: bool, g: Flag, w: bool)
    requires f != g
    ensures Set(Set(flags, f, v), g, w) == Set(Set(flags, g, w), f, v)
  {
    MasksDisjoint(f, g);
    SetBitsCommute(flags, Mask(f), v, Mask(g), w);
  }

  /** `friend_isTakeoffOrLandingInProgress` on a bit pattern. */
  predicate TakeoffOrLanding(flags: bv32)
  {
    Test(flags, TakeoffInProgress) || Test(flags, LandingInProgress)
  }

  /**
   * Only the takeoff and landing setters can change whether a takeoff or
   * landing is in progress; clearing both ends it, setting either starts it.
   */
  lemma TakeoffOrLandingOnlyFromItsFlags(flags: bv32, f: Flag, v: bool)
    ensures f != TakeoffInProgress && f != LandingInProgress ==>
              TakeoffOrLanding(Set(flags, f, v)) == TakeoffOrLanding(flags)
    ensures !TakeoffOrLanding(Set(Set(flags, TakeoffInProgress, false), LandingInProgress, false))
    ensures (f == TakeoffInProgress || f == LandingInProgress) && v ==> TakeoffOrLanding(Set(flags, f, v))
  {
    if f != TakeoffInProgress && f != LandingInProgress {
      SetKeepsOtherFlags(flags, f, v, TakeoffInProgress);
      SetKeepsOtherFlags(flags, f, v, LandingInProgress);
    } else {
      SetThenGet(flags, f, v);
    }
    var cleared := Set(flags, TakeoffInProgress, false);
    SetThenGet(flags, TakeoffInProgress, false);
    SetKeepsOtherFlags(cleared, LandingInProgress, false, TakeoffInProgress);
    SetThenGet(cleared, LandingInProgress, false);
  }

  /** A `JetAIUpdate`'s flag word. */
  class JetAIFlags {
    /** `m_flags`. */
    var flags: bv32

    constructor(initial: bv32)
      ensures flags == initial
    {
      flags := initial;
    }

    /** `getFlag(f)`. */
    predicate GetFlag(f: Flag)
      reads this
    {
      Test(flags, f)
    }

    /** `setFlag(f, v)`. */
    method SetFlag(f: Flag, v: bool)
      modifies this
      ensures flags == Set(old(flags), f, v)
      ensures GetFlag(f) == v
    {
      SetThenGet(flags, f, v);
      if v {
        flags := flags | Mask(f);
      } else {
        flags := flags & !Mask(f);
      }
    }

    /** `friend_setTakeoffInProgress(v)`. */
    method SetTakeoffInProgress(v: bool)
      modifies this
      ensures flags == Set(old(flags), TakeoffInProgress, v)
    {
      SetFlag(TakeoffInProgress, v);
    }

    /** `friend_setLandingInProgress(v)`. */
    method SetLandingInProgress(v: bool)
      modifies this
      ensures flags == Set(old(flags), LandingInProgress, v)
    {
      SetFlag(LandingInProgress, v);
    }

    /** `friend_setTaxiInProgress(v)`. */
    method SetTaxiInProgress(v: bool)
      modifies this
      ensures flags == Set(old(flags), TaxiInProgress, v)
    {
      SetFlag(TaxiInProgress, v);
    }

    /** `friend_setUseSpecialReturnLoco(v)`. */
    method SetUseSpecialReturnLoco(v: bool)
      modifies this
      ensures flags == Set(old(flags), UseSpecialReturnLoco, v)
    {
      SetFlag(UseSpecialReturnLoco, v);
    }

    /** `friend_setAllowCircling(v)`. */
    method SetAllowCircling(v: bool)
      modifies this
      ensures flags == Set(old(flags), AllowCircling, v)
    {
      SetFlag(AllowCircling, v);
    }

    /** `friend_isTakeoffOrLandingInProgress()`. */
    predicate IsTakeoffOrLandingInProgress()
      reads this
    {
      TakeoffOrLanding(flags)
    }
  }
}
