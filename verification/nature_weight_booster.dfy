/**
 * `NatureWeightBoosterHeldItem` (src/items/held-items/nature-weight-booster.ts):
 * a held item that pushes a nature-weight multiplier 0.1 per stack further
 * away from 1, leaving a multiplier of exactly 1 alone.
 */
module NatureWeightBoosterItem {
  import opened Common

  /** Distance from the neutral multiplier 1. */
  function DistanceFromOne(v: real): real {
    if v >= 1.0 then v - 1.0 else 1.0 - v
  }

  /** The multiplier after `stackCount` stacks. */
  function WeightedMultiplier(multiplier: real, stackCount: nat): (r: real)
    ensures multiplier == 1.0 ==> r == 1.0
    ensures multiplier > 1.0 ==> r == multiplier + 0.1 * stackCount as real
    ensures multiplier < 1.0 ==> r == multiplier - 0.1 * stackCount as real
  {
    if multiplier != 1.0 then
      multiplier + 0.1 * stackCount as real * (if multiplier > 1.0 then 1.0 else -1.0)
    else
      multiplier
  }

  /** The multiplier never moves closer to 1 and never crosses it. */
  lemma NeverCloserToOne(multiplier: real, stackCount: nat)
    ensures DistanceFromOne(WeightedMultiplier(multiplier, stackCount)) == DistanceFromOne(multiplier) + (if multiplier == 1.0 then 0.0 else 0.1 * stackCount as real)
    ensures DistanceFromOne(WeightedMultiplier(multiplier, stackCount)) >= DistanceFromOne(multiplier)
    ensures multiplier > 1.0 ==> WeightedMultiplier(multiplier, stackCount) > 1.0
    ensures multiplier < 1.0 ==> WeightedMultiplier(multiplier, stackCount) < 1.0
  {
  }

  /** With no stacks the multiplier stays put, whatever it is. */
  lemma ZeroStacksKeep(multiplier: real)
    ensures WeightedMultiplier(multiplier, 0) == multiplier
  {
  }

  class NatureWeightBoosterHeldItem {
    const itemType: int
    const maxStackCount: nat
    const effects: seq<HeldItemEffect>

    constructor (itemType: int, maxStackCount: nat := 1)
      ensures this.itemType == itemType && this.maxStackCount == maxStackCount
      ensures effects == [NatureWeightBooster]
    {
      this.itemType := itemType;
      this.maxStackCount := maxStackCount;
      effects := [NatureWeightBooster];
    }

    /**
     * `apply`: moves `multiplier` away from 1 by 0.1 per stack of this item;
     * reports success exactly when the multiplier was not 1, even with no stacks.
     */
    method Apply(stacks: map<int, nat>, multiplier: NumberHolder) returns (applied: bool)
      modifies multiplier
      ensures applied <==> old(multiplier.value) != 1.0
      ensures multiplier.value == WeightedMultiplier(old(multiplier.value), GetStack(stacks, itemType))
    {
      var stackCount := GetStack(stacks, itemType);
      if multiplier.value != 1.0 {
        multiplier.value := multiplier.value + 0.1 * stackCount as real * (if multiplier.value > 1.0 then 1.0 else -1.0);
        return true;
      }
      return false;
    }
  }
}
