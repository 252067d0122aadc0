/**
 * The firewall-behaviour queries of `FirewallHelperClass`,
 * Generals/Code/GameEngine/Include/GameNetwork/FirewallHelper.h.
 *
 * A `FirewallBehaviorType` value is a combination of the behaviour bits the
 * detection found, held in a 32-bit enum; the model keeps its bit pattern as a
 * `bv32`. `getRawFirewallBehavior` narrows it to an `UnsignedShort`, a `bv16`.
 */
module Firewall {

  const FirewallMin: bv32 := 0
  const FirewallUnknown: bv32 := 0
  const FirewallSimple: bv32 := 1
  const FirewallDumbMangling: bv32 := 2
  const FirewallSmartMangling: bv32 := 4
  const FirewallNetgearBug: bv32 := 8
  const FirewallSimplePortAllocation: bv32 := 16
  const FirewallRelativePortAllocation: bv32 := 32
  const FirewallDestinationPortDelta: bv32 := 64
  const FirewallMax: bv32 := 128

  /** The behaviour bits, in declaration order. */
  const BehaviorBits: seq<bv32> := [FirewallSimple, FirewallDumbMangling, FirewallSmartMangling,
                                     FirewallNetgearBug, FirewallSimplePortAllocation,
                                     FirewallRelativePortAllocation, FirewallDestinationPortDelta]

  /** `isNAT(behavior)`: something was detected, and it was not a simple firewall. */
  predicate IsNAT(behavior: bv32)
  {
    !(behavior == FirewallUnknown || behavior & FirewallSimple != 0)
  }

  /** `isNetgear(behavior)`: the Netgear source-port bug was seen. */
  predicate IsNetgear(behavior: bv32)
  {
    behavior & FirewallNetgearBug != 0
  }

  /** Bit `i` of a 32-bit pattern is set. */
  predicate HasBit(x: bv32, i: nat)
    requires i < 32
  {
    x & (1 << i) != 0
  }

  /** Bit `i` of a 16-bit pattern is set. */
  predicate HasBit16(x: bv16, i: nat)
    requires i < 16
  {
    x & (1 << i) != 0
  }

  /**
   * `(UnsignedShort)behavior`: conversion to an unsigned 16-bit type keeps the
   * value modulo 2^16, that is, bit i of the result is bit i of the behaviour
   * for each of the 16 bits it has.
   */
  function RawBehavior(behavior: bv32): (r: bv16)
    ensures forall i: nat | i < 16 :: HasBit16(r, i) == HasBit(behavior, i)
  {
    (behavior & 0xFFFF) as bv16
  }

  /** A `FirewallHelperClass` as far as these queries see it: its `m_behavior`. */
  datatype FirewallHelper = FirewallHelper(behavior: bv32)
  {
    /** The member `isNAT()`, on `m_behavior`. */
    predicate IsNATNow()
    {
      IsNAT(behavior)
    }

    /** The member `isNetgear()`, on `m_behavior`. */
    predicate IsNetgearNow()
    {
      IsNetgear(behavior)
    }

    /** `getRawFirewallBehavior()`. */
    function GetRawFirewallBehavior(): bv16
    {
      RawBehavior(behavior)
    }
  }

  /**
   * The behaviour values are distinct single bits, every one below
   * `FIREWALL_MAX`; `FIREWALL_MIN` is the unknown value.
   */
  lemma BehaviorBitsAreFlags()
    ensures FirewallMin == FirewallUnknown
    ensures forall i :: 0 <= i < |BehaviorBits| ==> BehaviorBits[i] == (1 as bv32) << (i as bv32)
    ensures forall i :: 0 <= i < |BehaviorBits| ==> BehaviorBits[i] < FirewallMax
    ensures FirewallMax == (1 as bv32) << 7
  {
    assert BehaviorBits[0] == (1 as bv32) << 0;
    assert BehaviorBits[1] == (1 as bv32) << 1;
    assert BehaviorBits[2] == (1 as bv32) << 2;
    assert BehaviorBits[3] == (1 as bv32) << 3;
    assert BehaviorBits[4] == (1 as bv32) << 4;
    assert BehaviorBits[5] == (1 as bv32) << 5;
    assert BehaviorBits[6] == (1 as bv32) << 6;
  }

  /** Nothing detected, or a simple firewall seen, is never NAT, whatever else is set. */
  lemma SimpleIsNeverNAT(behavior: bv32)
    ensures behavior & FirewallSimple != 0 ==> !IsNAT(behavior)
    ensures !IsNAT(FirewallUnknown)
  {
  }

  /**
   * Any mangling or port-allocation behaviour without the simple bit is NAT:
   * `isNAT` holds exactly for the non-zero values whose lowest bit is clear.
   */
  lemma NATExactly(behavior: bv32)
    ensures IsNAT(behavior) <==> behavior != 0 && behavior & 1 == 0
    ensures IsNAT(FirewallDumbMangling) && IsNAT(FirewallSmartMangling) && IsNAT(FirewallNetgearBug)
    ensures IsNAT(FirewallSimplePortAllocation) && IsNAT(FirewallRelativePortAllocation)
    ensures IsNAT(FirewallDestinationPortDelta)
  {
  }

  /**
   * `isNetgear` does not look at the simple bit: a Netgear result on a simple
   * firewall is not NAT, while a Netgear result without it always is.
   */
  lemma NetgearAndNAT(behavior: bv32)
    ensures IsNetgear(behavior) && behavior & FirewallSimple == 0 ==> IsNAT(behavior)
    ensures IsNetgear(FirewallSimple | FirewallNetgearBug) && !IsNAT(FirewallSimple | FirewallNetgearBug)
  {
    if IsNetgear(behavior) {
      NonZeroWithBit(behavior, FirewallNetgearBug);
    }
  }

  lemma NonZeroWithBit(x: bv32, m: bv32)
    requires x & m != 0
    ensures x != 0
  {
  }

  /**
   * Every combination of the detected behaviours fits in 16 bits, so the raw
   * value keeps it whole and both queries answer alike on it.
   */
  lemma RawKeepsBehaviors(behavior: bv32)
    requires behavior < FirewallMax
    ensures RawBehavior(behavior) as bv32 == behavior
    ensures IsNAT(RawBehavior(behavior) as bv32) == IsNAT(behavior)
    ensures IsNetgear(RawBehavior(behavior) as bv32) == IsNetgear(behavior)
  {
    LowMask(behavior);
  }

  lemma LowMask(x: bv32)
    requires x < 128
    ensures x & 0xFFFF == x
  {
  }

  /** Bits above the sixteenth are lost in the raw value. */
  lemma RawDropsHighBits()
    ensures RawBehavior(0x1_0000) == 0 && RawBehavior(0x1_0008) == 8
  {
  }
}
