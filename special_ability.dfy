/**
 * The preparation and sleep rules of `SpecialAbilityUpdate` and the defaults
 * of its module data,
 * Generals/Code/GameEngine/Include/GameLogic/Module/SpecialAbilityUpdate.h.
 *
 * `UnsignedInt` fields are `UInt32` values; the floating-point ranges, the
 * names, templates, sounds and particle systems of the module data are not
 * modelled.
 */
module SpecialAbility {

  newtype UInt32 = x: int | 0 <= x < 0x1_0000_0000

  /** The sleep an update module asks for: every frame, or until woken. */
  datatype UpdateSleepTime = UpdateSleepNone | UpdateSleepForever

  /** The integer and boolean fields of `SpecialAbilityUpdateModuleData`. */
  datatype ModuleData = ModuleData(
    effectValue: int,
    awardXpForTriggering: int,
    skillPointsForTriggering: int,
    preparationFrames: UInt32,
    persistentPrepFrames: UInt32,
    effectDuration: UInt32,
    maxSpecialObjects: UInt32,
    packTime: UInt32,
    unpackTime: UInt32,
    preTriggerUnstealthFrames: UInt32,
    skipPackingWithNoTarget: bool,
    specialObjectsPersistent: bool,
    uniqueSpecialObjectTargets: bool,
    specialObjectsPersistWhenOwnerDies: bool,
    flipObjectAfterPacking: bool,
    flipObjectAfterUnpacking: bool,
    alwaysValidateSpecialObjects: bool,
    doCaptureFx: bool,
    loseStealthOnTrigger: bool,
    approachRequiresLos: bool)
  {
    /** The frame counts the data holds. */
    function FrameCounts(): seq<UInt32>
    {
      [preparationFrames, persistentPrepFrames, effectDuration, packTime, unpackTime, preTriggerUnstealthFrames]
    }

    /** The switches the data holds, except `approachRequiresLos`. */
    function Switches(): seq<bool>
    {
      [skipPackingWithNoTarget, specialObjectsPersistent, uniqueSpecialObjectTargets,
       specialObjectsPersistWhenOwnerDies, flipObjectAfterPacking, flipObjectAfterUnpacking,
       alwaysValidateSpecialObjects, doCaptureFx, loseStealthOnTrigger]
    }
  }

  /**
   * What the `SpecialAbilityUpdateModuleData` constructor sets before any INI
   * field is parsed: no timing at all, one special object worth 1, no XP, no
   * skill-point trigger (-1), and the approach needing line of sight.
   */
  function DefaultModuleData(): (d: ModuleData)
    ensures forall i :: 0 <= i < |d.FrameCounts()| ==> d.FrameCounts()[i] == 0
    ensures forall i :: 0 <= i < |d.Switches()| ==> !d.Switches()[i]
    ensures d.maxSpecialObjects == 1 && d.effectValue == 1
    ensures d.awardXpForTriggering == 0 && d.skillPointsForTriggering == -1
    ensures d.approachRequiresLos
  {
    ModuleData(1, 0, -1, 0, 0, 0, 1, 0, 0, 0,
               false, false, false, false, false, false, false, false, false, true)
  }

  /** A `SpecialAbilityUpdate` module: its data and the state these members use. */
  class SpecialAbilityUpdate {
    /** The module data it was created with. */
    const data: ModuleData
    /** `m_prepFrames`: frames of preparation still to go. */
    var prepFrames: UInt32
    /** `m_active`. */
    var active: bool

    /**
     * A module in any state: the engine's own constructor is not part of this
     * model, so the data, the countdown and the active flag are given.
     */
    constructor(data: ModuleData, prepFrames: UInt32, active: bool)
      ensures this.data == data && this.prepFrames == prepFrames && this.active == active
    {
      this.data := data;
      this.prepFrames := prepFrames;
      this.active := active;
    }

    /** `isSpecialAbility`: always. */
    predicate IsSpecialAbility()
    {
      true
    }

    /** `isSpecialPower`: never. */
    predicate IsSpecialPower()
    {
      false
    }

    predicate IsActive()
      reads this
    {
      active
    }

    /** `isPreparationComplete`: no preparation frames are left. */
    predicate IsPreparationComplete()
      reads this
    {
      !(prepFrames != 0)
    }

    /** `isPersistentAbility`: the data asks for a persistent preparation time. */
    predicate IsPersistentAbility()
    {
      data.persistentPrepFrames > 0
    }

    /**
     * `resetPreparation`: the preparation starts again with the persistent
     * preparation time, so it is complete at once exactly when the ability is
     * not persistent.
     */
    method ResetPreparation()
      modifies this
      ensures prepFrames == data.persistentPrepFrames && active == old(active)
      ensures IsPreparationComplete() <==> !IsPersistentAbility()
    {
      prepFrames := data.persistentPrepFrames;
    }

    /**
     * `calcSleepTime`: an active ability, or one that keeps validating its
     * special objects, is updated every frame; any other sleeps until woken.
     */
    function CalcSleepTime(): (r: UpdateSleepTime)
      reads this
      ensures r == UpdateSleepNone <==> active || data.alwaysValidateSpecialObjects
      ensures r == UpdateSleepForever <==> !active && !data.alwaysValidateSpecialObjects
    {
      if active || data.alwaysValidateSpecialObjects then UpdateSleepNone else UpdateSleepForever
    }
  }

  /**
   * An ability made from the default data is neither persistent nor always
   * validating: it sleeps whenever it is inactive, and a reset completes its
   * preparation.
   */
  lemma DefaultAbilityIsTransient(u: SpecialAbilityUpdate)
    requires u.data == DefaultModuleData()
    ensures !u.IsPersistentAbility()
    ensures u.CalcSleepTime() == UpdateSleepForever <==> !u.IsActive()
    ensures u.IsSpecialAbility() && !u.IsSpecialPower()
  {
    var d := DefaultModuleData();
    assert d.FrameCounts()[1] == d.persistentPrepFrames;
    assert d.Switches()[6] == d.alwaysValidateSpecialObjects;
  }

  /** The preparation is complete exactly when no frames are left, whatever else holds. */
  lemma CompleteMeansNoFramesLeft(u: SpecialAbilityUpdate)
    ensures u.IsPreparationComplete() <==> u.prepFrames == 0
    ensures u.IsPersistentAbility() <==> u.data.persistentPrepFrames != 0
  {
  }
}
