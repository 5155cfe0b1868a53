/**
 * `FriendshipBoosterHeldItem` (src/items/held-items/friendship-booster.ts):
 * a held item that scales friendship gain by 1 + 0.5 per stack, rounded down.
 */
module FriendshipBoosterItem {
  import opened Common

  /** The friendship gain after `stackCount` stacks: `floor(friendship * (1 + 0.5 * stackCount))`. */
  function BoostedFriendship(friendship: real, stackCount: nat): (r: real)
    ensures IsIntegral(r)
    ensures r <= friendship * (1.0 + 0.5 * stackCount as real) < r + 1.0
    ensures stackCount == 0 && IsIntegral(friendship) ==> r == friendship
    ensures 0.0 <= friendship && IsIntegral(friendship) ==> friendship <= r
  {
    FloorMul(friendship, 1.0 + 0.5 * stackCount as real)
  }

  /** Two stacks double a whole friendship value exactly. */
  lemma TwoStacksDouble(friendship: real)
    requires IsIntegral(friendship)
    ensures BoostedFriendship(friendship, 2) == 2.0 * friendship
  {
    var m := 1.0 + 0.5 * 2 as real;
    assert m == 2.0;
    var n := friendship.Floor;
    assert friendship * m == (2 * n) as real;
    FloorMulWhole(friendship, m);
  }

  /** More stacks never give less, for a non-negative value. */
  lemma BoostedFriendshipMonotone(friendship: real, s1: nat, s2: nat)
    requires 0.0 <= friendship && s1 <= s2
    ensures BoostedFriendship(friendship, s1) <= BoostedFriendship(friendship, s2)
  {
    FloorMulMonotone(friendship, 1.0 + 0.5 * s1 as real, 1.0 + 0.5 * s2 as real);
  }

  class FriendshipBoosterHeldItem {
    const itemType: int
    const maxStackCount: nat
    const effects: seq<HeldItemEffect>

    constructor (itemType: int, maxStackCount: nat := 1)
      ensures this.itemType == itemType && this.maxStackCount == maxStackCount
      ensures effects == [FriendshipBooster]
    {
      this.itemType := itemType;
      this.maxStackCount := maxStackCount;
      effects := [FriendshipBooster];
    }

    /** `apply`: scales `friendship` by this item's own stack count; always reports success. */
    method Apply(stacks: map<int, nat>, friendship: NumberHolder) returns (applied: bool)
      modifies friendship
      ensures applied
      ensures friendship.value == BoostedFriendship(old(friendship.value), GetStack(stacks, itemType))
    {
      var stackCount := GetStack(stacks, itemType);
      friendship.value := FloorMul(friendship.value, 1.0 + 0.5 * stackCount as real);
      return true;
    }
  }
}
