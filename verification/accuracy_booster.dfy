/**
 * `AccuracyBoosterHeldItem` (src/items/held-items/accuracy-booster.ts): a
 * held item that adds a fixed amount per stack to a move's accuracy.
 */
module AccuracyBoosterItem {
  import opened Common

  /** The accuracy after `stackCount` stacks of a booster adding `amount` each. */
  function BoostedAccuracy(accuracy: real, amount: real, stackCount: nat): (r: real)
    ensures stackCount == 0 ==> r == accuracy
    ensures amount >= 0.0 ==> r >= accuracy
    ensures amount > 0.0 && stackCount > 0 ==> r > accuracy
  {
    accuracy + amount * stackCount as real
  }

  /** Applying one stack at a time adds up to applying all stacks at once. */
  lemma {:induction false} BoostedAccuracyAdds(accuracy: real, amount: real, s1: nat, s2: nat)
    ensures BoostedAccuracy(BoostedAccuracy(accuracy, amount, s1), amount, s2) == BoostedAccuracy(accuracy, amount, s1 + s2)
  {
    assert amount * s1 as real + amount * s2 as real == amount * (s1 + s2) as real;
  }

  class AccuracyBoosterHeldItem {
    const itemType: int
    const maxStackCount: nat
    const accuracyAmount: real
    const effects: seq<HeldItemEffect>

    constructor (itemType: int, maxStackCount: nat := 1, accuracy: real)
      ensures this.itemType == itemType && this.maxStackCount == maxStackCount
      ensures accuracyAmount == accuracy
      ensures effects == [AccuracyBooster]
    {
      this.itemType := itemType;
      this.maxStackCount := maxStackCount;
      accuracyAmount := accuracy;
      effects := [AccuracyBooster];
    }

    /**
     * `apply`: reads this item's own stack count from the holder's stacks and
     * adds `accuracyAmount` per stack to `moveAccuracy`; always reports success.
     */
    method Apply(stacks: map<int, nat>, moveAccuracy: NumberHolder) returns (applied: bool)
      modifies moveAccuracy
      ensures applied
      ensures moveAccuracy.value == BoostedAccuracy(old(moveAccuracy.value), accuracyAmount, GetStack(stacks, itemType))
    {
      var stackCount := GetStack(stacks, itemType);
      moveAccuracy.value := moveAccuracy.value + accuracyAmount * stackCount as real;
      return true;
    }
  }
}
