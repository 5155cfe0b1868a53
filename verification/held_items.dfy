/**
 * The attack-type booster held items of `src/modifier/held-items.ts`: the
 * item base class with its flags and builders, the 18-entry map from a move
 * type to its booster, the power boost `floor(v * (1 + s * r))`, the loop that
 * applies every booster a Pokemon holds, and the registry initialisation.
 *
 * This file uses its own id space `HeldItemType` (SITRUS_BERRY = 1,
 * SILK_SCARF = 101, ...), which is not the `HeldItemId` table of
 * `held_item_id.dfy`; the two are kept apart on purpose.
 */
module HeldItems {
  import opened Wrappers
  import opened Common

  /** The elemental types; UNKNOWN and STELLAR have no booster item. */
  datatype PokemonType =
    | Unknown
    | Normal | Fighting | Flying | Poison | Ground | Rock | Bug | Ghost | Steel
    | Fire | Water | Grass | Electric | Psychic | Ice | Dragon | Dark | Fairy
    | Stellar

  /** The enum `HeldItemType` of this file, as its numeric values. */
  type HeldItemType = int

  const NoHeldItem: HeldItemType := 0
  const SitrusBerry: HeldItemType := 1
  const LeppaBerry: HeldItemType := 2
  const SilkScarf: HeldItemType := 101
  const FairyFeather: HeldItemType := 118

  /** The enum value of a type (NORMAL = 0 ... FAIRY = 17, UNKNOWN = -1, STELLAR = 18). */
  function TypeValue(t: PokemonType): int
  {
    match t
    case Unknown => -1
    case Normal => 0
    case Fighting => 1
    case Flying => 2
    case Poison => 3
    case Ground => 4
    case Rock => 5
    case Bug => 6
    case Ghost => 7
    case Steel => 8
    case Fire => 9
    case Water => 10
    case Grass => 11
    case Electric => 12
    case Psychic => 13
    case Ice => 14
    case Dragon => 15
    case Dark => 16
    case Fairy => 17
    case Stellar => 18
  }

  /** `attackTypeToHeldItemTypeMap`: the booster item of a move type, if there is one. */
  function AttackTypeToHeldItemType(t: PokemonType): (r: Option<HeldItemType>)
    ensures r.Some? <==> 0 <= TypeValue(t) <= 17
    ensures r.Some? ==> SilkScarf <= r.value <= FairyFeather
  {
    match t
    case Normal => Some(101)     // SILK_SCARF
    case Fighting => Some(102)   // BLACK_BELT
    case Flying => Some(103)     // SHARP_BEAK
    case Poison => Some(104)     // POISON_BARB
    case Ground => Some(105)     // SOFT_SAND
    case Rock => Some(106)       // HARD_STONE
    case Bug => Some(107)        // SILVER_POWDER
    case Ghost => Some(108)      // SPELL_TAG
    case Steel => Some(109)      // METAL_COAT
    case Fire => Some(110)       // CHARCOAL
    case Water => Some(111)      // MYSTIC_WATER
    case Grass => Some(112)      // MIRACLE_SEED
    case Electric => Some(113)   // MAGNET
    case Psychic => Some(114)    // TWISTED_SPOON
    case Ice => Some(115)        // NEVER_MELT_ICE
    case Dragon => Some(116)     // DRAGON_FANG
    case Dark => Some(117)       // BLACK_GLASSES
    case Fairy => Some(118)      // FAIRY_FEATHER
    case _ => None
  }

  /** The booster map is injective: two move types never share a booster item. */
  lemma AttackTypeMapInjective(t1: PokemonType, t2: PokemonType)
    requires AttackTypeToHeldItemType(t1).Some?
    requires AttackTypeToHeldItemType(t1) == AttackTypeToHeldItemType(t2)
    ensures t1 == t2
  {
    AttackTypeMapIsOffset(t1);
    AttackTypeMapIsOffset(t2);
    TypeValueInjective(t1, t2);
  }

  /** The booster of the type with enum value k is item 101 + k. */
  lemma AttackTypeMapIsOffset(t: PokemonType)
    requires AttackTypeToHeldItemType(t).Some?
    ensures AttackTypeToHeldItemType(t).value == SilkScarf + TypeValue(t)
  {
  }

  lemma TypeValueInjective(t1: PokemonType, t2: PokemonType)
    requires TypeValue(t1) == TypeValue(t2)
    ensures t1 == t2
  {
  }

  /** The types in the order `Object.entries` visits the map (ascending numeric key). */
  const BoostedTypes: seq<PokemonType> :=
    [Normal, Fighting, Flying, Poison, Ground, Rock, Bug, Ghost, Steel,
     Fire, Water, Grass, Electric, Psychic, Ice, Dragon, Dark, Fairy]

  /** What a registered item does: nothing here, or boost moves of one type. */
  datatype ItemKind =
    | Plain
    | AttackTypeBooster(moveType: PokemonType, powerBoost: real)

  /** The stack-count label of an item icon: the count, and whether it is tinted as full. */
  datatype StackText = StackText(count: nat, highlighted: bool)

  /** A held item (the base class, or an attack-type booster when `kind` says so). */
  class HeldItem {
    const itemType: HeldItemType
    const maxStackCount: nat
    const kind: ItemKind
    var isTransferable: bool
    var isStealable: bool
    var isSuppressable: bool

    constructor (itemType: HeldItemType, maxStackCount: nat := 1)
      ensures this.itemType == itemType && this.maxStackCount == maxStackCount && kind == Plain
      ensures isTransferable && isStealable && isSuppressable
    {
      this.itemType := itemType;
      this.maxStackCount := maxStackCount;
      kind := Plain;
      isTransferable, isStealable, isSuppressable := true, true, true;
    }

    /** `new AttackTypeBoosterHeldItem(type, maxStackCount, moveType, powerBoost)`. */
    constructor AttackTypeBoosterItem(itemType: HeldItemType, maxStackCount: nat, moveType: PokemonType, powerBoost: real)
      ensures this.itemType == itemType && this.maxStackCount == maxStackCount
      ensures kind == AttackTypeBooster(moveType, powerBoost)
      ensures isTransferable && isStealable && isSuppressable
    {
      this.itemType := itemType;
      this.maxStackCount := maxStackCount;
      kind := AttackTypeBooster(moveType, powerBoost);
      isTransferable, isStealable, isSuppressable := true, true, true;
    }

    method Untransferable() returns (r: HeldItem)
      modifies this
      ensures r == this && !isTransferable
      ensures isStealable == old(isStealable) && isSuppressable == old(isSuppressable)
    {
      isTransferable := false;
      r := this;
    }

    method Unstealable() returns (r: HeldItem)
      modifies this
      ensures r == this && !isStealable
      ensures isTransferable == old(isTransferable) && isSuppressable == old(isSuppressable)
    {
      isStealable := false;
      r := this;
    }

    method Unsuppressable() returns (r: HeldItem)
      modifies this
      ensures r == this && !isSuppressable
      ensures isTransferable == old(isTransferable) && isStealable == old(isStealable)
    {
      isSuppressable := false;
      r := this;
    }

    /** `getIconStackText`: no label for single-stack items; a tinted one once the stack is full. */
    function IconStackText(stackCount: nat): (r: Option<StackText>)
      ensures r.None? <==> maxStackCount == 1
      ensures r.Some? ==> r.value.count == stackCount
      ensures r.Some? ==> (r.value.highlighted <==> stackCount >= maxStackCount)
    {
      if maxStackCount == 1 then None
      else Some(StackText(stackCount, stackCount >= maxStackCount))
    }

    /** `AttackTypeBoosterHeldItem.apply`: rewrites the move power held in `movePower`. */
    method Apply(stackCount: nat, moveType: PokemonType, movePower: NumberHolder)
      requires kind.AttackTypeBooster?
      modifies movePower
      ensures movePower.value == BoostedPower(old(movePower.value), stackCount, kind.moveType, kind.powerBoost, moveType)
    {
      var boostType, powerBoost := kind.moveType, kind.powerBoost;
      if moveType == boostType && movePower.value >= 1.0 {
        ghost var before := movePower.value;
        movePower.value := FloorMul(movePower.value, 1.0 + stackCount as real * powerBoost);
        BoostedPowerOnMatch(before, stackCount, boostType, powerBoost, moveType);
      }
    }
  }

  /**
   * The power after one attack-type booster of type `boostType` with `stackCount`
   * stacks and ratio `powerBoost` is applied to a move of type `moveType`.
   */
  function BoostedPower(power: real, stackCount: nat, boostType: PokemonType, powerBoost: real, moveType: PokemonType): (r: real)
    ensures moveType != boostType || power < 1.0 ==> r == power
    ensures moveType == boostType && power >= 1.0 ==>
              IsIntegral(r) && r <= power * (1.0 + stackCount as real * powerBoost) < r + 1.0
    ensures stackCount == 0 && IsIntegral(power) ==> r == power
    ensures powerBoost >= 0.0 && IsIntegral(power) ==> r >= power
  {
    if moveType == boostType && power >= 1.0 then
      var factor := 1.0 + stackCount as real * powerBoost;
      assert stackCount == 0 ==> factor == 1.0;
      assert powerBoost >= 0.0 ==> factor >= 1.0;
      FloorMul(power, factor)
    else
      power
  }

  lemma BoostedPowerOnMatch(p: real, s: nat, bt: PokemonType, pb: real, mt: PokemonType)
    requires mt == bt && p >= 1.0
    ensures BoostedPower(p, s, bt, pb, mt) == FloorMul(p, 1.0 + s as real * pb) {}

  /** The worked example: power 100 with two stacks of a 0.2 booster becomes 140. */
  lemma BoostExample()
    ensures BoostedPower(100.0, 2, Bug, 0.2, Bug) == 140.0
  {
  }

  /** One step of `applyAttackTypeBoosterHeldItem`'s loop: only registered boosters act. */
  function BoostStep(registry: map<HeldItemType, HeldItem>, entry: (HeldItemType, nat), moveType: PokemonType, power: real): (r: real)
    ensures power < 1.0 ==> r == power
    ensures IsIntegral(power) && NonNegativeBoosts(registry) ==> IsIntegral(r) && r >= power
  {
    if entry.0 in registry && registry[entry.0].kind.AttackTypeBooster? then
      NonNegativeBoostAt(registry, entry.0);
      BoostedPower(power, entry.1, registry[entry.0].kind.moveType, registry[entry.0].kind.powerBoost, moveType)
    else
      power
  }

  /** The power after every held entry has been visited in order. */
  function BoostAll(registry: map<HeldItemType, HeldItem>, entries: seq<(HeldItemType, nat)>, moveType: PokemonType, power: real): (r: real)
    ensures power < 1.0 ==> r == power
    ensures IsIntegral(power) && NonNegativeBoosts(registry) ==> IsIntegral(r) && r >= power
  {
    if entries == [] then power
    else BoostAll(registry, entries[1..], moveType, BoostStep(registry, entries[0], moveType, power))
  }

  /** Every registered attack-type booster raises power rather than lowering it. */
  predicate NonNegativeBoosts(registry: map<HeldItemType, HeldItem>)
  {
    forall id :: id in registry && registry[id].kind.AttackTypeBooster? ==> registry[id].kind.powerBoost >= 0.0
  }

  lemma NonNegativeBoostAt(registry: map<HeldItemType, HeldItem>, id: HeldItemType)
    requires id in registry && registry[id].kind.AttackTypeBooster?
    ensures NonNegativeBoosts(registry) ==> registry[id].kind.powerBoost >= 0.0
  {
  }

  /**
   * `applyAttackTypeBoosterHeldItem`: visits the (item, stack count) pairs the
   * Pokemon holds, in order, letting each registered attack-type booster
   * rewrite the shared holder. An absent Pokemon changes nothing.
   */
  method ApplyAttackTypeBoosterHeldItem(heldItems: Option<seq<(HeldItemType, nat)>>, registry: map<HeldItemType, HeldItem>,
                                        moveType: PokemonType, movePower: NumberHolder)
    modifies movePower
    ensures heldItems.None? ==> movePower.value == old(movePower.value)
    ensures heldItems.Some? ==> movePower.value == BoostAll(registry, heldItems.value, moveType, old(movePower.value))
  {
    if heldItems.Some? {
      var entries := heldItems.value;
      var i := 0;
      while i < |entries|
        invariant 0 <= i <= |entries|
        invariant BoostAll(registry, entries[i..], moveType, movePower.value) == BoostAll(registry, entries, moveType, old(movePower.value))
      {
        var (item, stackCount) := entries[i];
        assert entries[i..][1..] == entries[i + 1..];
        if item in registry && registry[item].kind.AttackTypeBooster? {
          registry[item].Apply(stackCount, moveType, movePower);
        }
        i := i + 1;
      }
    }
  }

  /** Every registered booster sits under the id the booster map gives its type. */
  predicate BoostersKeyedByType(registry: map<HeldItemType, HeldItem>)
  {
    forall id :: id in registry && registry[id].kind.AttackTypeBooster? ==>
      AttackTypeToHeldItemType(registry[id].kind.moveType) == Some(id)
  }

  /** A held entry whose registered item boosts moves of `moveType`. */
  predicate Boosts(registry: map<HeldItemType, HeldItem>, entry: (HeldItemType, nat), moveType: PokemonType)
  {
    entry.0 in registry && registry[entry.0].kind.AttackTypeBooster? && registry[entry.0].kind.moveType == moveType
  }

  predicate DistinctIds(entries: seq<(HeldItemType, nat)>)
  {
    forall i, j :: 0 <= i < j < |entries| ==> entries[i].0 != entries[j].0
  }

  /** Entries that do not boost `moveType` leave the power alone. */
  lemma {:induction false} BoostAllNoMatch(registry: map<HeldItemType, HeldItem>, entries: seq<(HeldItemType, nat)>,
                                           moveType: PokemonType, power: real)
    requires forall k :: 0 <= k < |entries| ==> !Boosts(registry, entries[k], moveType)
    ensures BoostAll(registry, entries, moveType, power) == power
  {
    if entries != [] {
      assert !Boosts(registry, entries[0], moveType);
      BoostAllNoMatch(registry, entries[1..], moveType, power);
    }
  }

  /**
   * With boosters keyed by type and distinct held ids, at most one held item
   * changes the power: the one entry that boosts `moveType`, if any.
   */
  lemma {:induction false} AtMostOneBoosterApplies(registry: map<HeldItemType, HeldItem>, entries: seq<(HeldItemType, nat)>,
                                                   moveType: PokemonType, power: real, k: nat)
    requires BoostersKeyedByType(registry) && DistinctIds(entries)
    requires k < |entries| && Boosts(registry, entries[k], moveType)
    ensures forall j :: 0 <= j < |entries| && j != k ==> !Boosts(registry, entries[j], moveType)
    ensures BoostAll(registry, entries, moveType, power)
            == BoostedPower(power, entries[k].1, moveType, registry[entries[k].0].kind.powerBoost, moveType)
  {
    forall j | 0 <= j < |entries| && j != k
      ensures !Boosts(registry, entries[j], moveType)
    {
      if Boosts(registry, entries[j], moveType) {
        assert false;
      }
    }
    BoostAllSplit(registry, entries, moveType, power, k);
  }

  /** Helper for `AtMostOneBoosterApplies`: the prefix and suffix around the only match are inert. */
  lemma {:induction false} BoostAllSplit(registry: map<HeldItemType, HeldItem>, entries: seq<(HeldItemType, nat)>,
                                         moveType: PokemonType, power: real, k: nat)
    requires k < |entries| && Boosts(registry, entries[k], moveType)
    requires forall j :: 0 <= j < |entries| && j != k ==> !Boosts(registry, entries[j], moveType)
    ensures BoostAll(registry, entries, moveType, power)
            == BoostedPower(power, entries[k].1, moveType, registry[entries[k].0].kind.powerBoost, moveType)
  {
    if k == 0 {
      var next := BoostStep(registry, entries[0], moveType, power);
      BoostAllNoMatch(registry, entries[1..], moveType, next);
    } else {
      assert !Boosts(registry, entries[0], moveType);
      assert BoostStep(registry, entries[0], moveType, power) == power;
      BoostAllSplit(registry, entries[1..], moveType, power, k - 1);
    }
  }

  /** The process-wide `allHeldItems` table. */
  class HeldItemRegistry {
    var items: map<HeldItemType, HeldItem>

    constructor ()
      ensures items == map[]
    {
      items := map[];
    }

    /**
     * `initHeldItems`: registers one booster per entry of the booster map,
     * with max stack 99, ratio 0.2 and its own type as `moveType`; entries
     * under other ids stay.
     */
    method InitHeldItems()
      modifies this
      ensures forall id :: SilkScarf <= id <= FairyFeather ==>
                id in items && fresh(items[id]) && RegisteredBooster(items[id], id, BoostedTypes[id - SilkScarf])
      ensures forall id :: id in items <==> id in old(items) || SilkScarf <= id <= FairyFeather
      ensures forall id :: id in old(items) && !(SilkScarf <= id <= FairyFeather) ==> items[id] == old(items)[id]
      ensures BoostersKeyedByType(old(items)) ==> BoostersKeyedByType(items)
    {
      var i := 0;
      while i < |BoostedTypes|
        invariant 0 <= i <= |BoostedTypes|
        invariant forall id :: SilkScarf <= id < SilkScarf + i ==>
                    id in items && fresh(items[id]) && RegisteredBooster(items[id], id, BoostedTypes[id - SilkScarf])
        invariant forall id :: id in items <==> id in old(items) || SilkScarf <= id < SilkScarf + i
        invariant forall id :: id in old(items) && !(SilkScarf <= id < SilkScarf + i) ==> items[id] == old(items)[id]
        invariant BoostersKeyedByType(old(items)) ==> BoostersKeyedByType(items)
      {
        var t := BoostedTypes[i];
        BoostedTypeAt(i);
        var id := AttackTypeToHeldItemType(t).value;
        var item := new HeldItem.AttackTypeBoosterItem(id, 99, t, 0.2);
        KeyedByTypeUpdate(items, id, item);
        assert id == SilkScarf + i;
        items := items[id := item];
        i := i + 1;
      }
    }
  }

  /** Registering a booster under its own type's id keeps the registry keyed by type. */
  lemma KeyedByTypeUpdate(registry: map<HeldItemType, HeldItem>, id: HeldItemType, item: HeldItem)
    requires item.kind.AttackTypeBooster? ==> AttackTypeToHeldItemType(item.kind.moveType) == Some(id)
    ensures BoostersKeyedByType(registry) ==> BoostersKeyedByType(registry[id := item])
  {
  }

  /** A freshly registered booster: its id, max stack 99, ratio 0.2, type `t`, all flags set. */
  predicate RegisteredBooster(item: HeldItem, id: HeldItemType, t: PokemonType)
    reads item
  {
    && item.itemType == id && item.maxStackCount == 99
    && item.kind == AttackTypeBooster(t, 0.2)
    && item.isTransferable && item.isStealable && item.isSuppressable
  }

  /** The j-th key visited by `initHeldItems` is the type with enum value j. */
  lemma BoostedTypeAt(j: nat)
    requires j < |BoostedTypes|
    ensures TypeValue(BoostedTypes[j]) == j
    ensures AttackTypeToHeldItemType(BoostedTypes[j]) == Some(SilkScarf + j)
  {
    AttackTypeMapIsOffset(BoostedTypes[j]);
  }
}
