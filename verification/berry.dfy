/**
 * `BerryHeldItem` (src/items/held-items/berry.ts): the berry-type to held
 * item id map, the per-berry stack limit, the icon name, and `apply`, which
 * lets berry-preserving effects vote, runs the berry's effect, consumes the
 * berry unless preserved and records it as eaten.
 */
module BerryItem {
  import opened Common
  import HeldItemIds

  datatype BerryType =
    | Sitrus | Lum | Enigma | Liechi | Ganlon | Petaya | Apicot | Salac | Lansat | Starf | Leppa

  /** The enum key of each berry type, as written in the `BerryType` enum. */
  function BerryTypeName(b: BerryType): string {
    match b
    case Sitrus => "SITRUS"
    case Lum => "LUM"
    case Enigma => "ENIGMA"
    case Liechi => "LIECHI"
    case Ganlon => "GANLON"
    case Petaya => "PETAYA"
    case Apicot => "APICOT"
    case Salac => "SALAC"
    case Lansat => "LANSAT"
    case Starf => "STARF"
    case Leppa => "LEPPA"
  }

  /** `berryTypeToHeldItem`: each berry type to its `HeldItemId`. */
  function BerryTypeToHeldItem(b: BerryType): (id: int)
    ensures HeldItemIds.SitrusBerry <= id <= HeldItemIds.LeppaBerry
  {
    match b
    case Sitrus => HeldItemIds.SitrusBerry
    case Lum => HeldItemIds.LumBerry
    case Enigma => HeldItemIds.EnigmaBerry
    case Liechi => HeldItemIds.LiechiBerry
    case Ganlon => HeldItemIds.GanlonBerry
    case Petaya => HeldItemIds.PetayaBerry
    case Apicot => HeldItemIds.ApicotBerry
    case Salac => HeldItemIds.SalacBerry
    case Lansat => HeldItemIds.LansatBerry
    case Starf => HeldItemIds.StarfBerry
    case Leppa => HeldItemIds.LeppaBerry
  }

  /** The map is one-to-one, so no two berry types share a held item id. */
  lemma BerryTypeToHeldItemInjective(b1: BerryType, b2: BerryType)
    ensures BerryTypeToHeldItem(b1) == BerryTypeToHeldItem(b2) ==> b1 == b2
  {
  }

  /** Every id in 0x0101..0x010B is the image of some berry type, and it is the table's entry for that berry. */
  lemma BerryTypeToHeldItemOnto(id: int)
    requires HeldItemIds.SitrusBerry <= id <= HeldItemIds.LeppaBerry
    ensures exists b :: BerryTypeToHeldItem(b) == id
    ensures HeldItemIds.Berries[id - HeldItemIds.SitrusBerry].1 == id
  {
    HeldItemIds.GroupRanges();
    var b :=
      if id == 0x0101 then Sitrus else if id == 0x0102 then Lum else if id == 0x0103 then Enigma
      else if id == 0x0104 then Liechi else if id == 0x0105 then Ganlon else if id == 0x0106 then Petaya
      else if id == 0x0107 then Apicot else if id == 0x0108 then Salac else if id == 0x0109 then Lansat
      else if id == 0x010A then Starf else Leppa;
    assert BerryTypeToHeldItem(b) == id;
  }

  /**
   * Each berry type maps to the `HeldItemId` entry of the same name: the
   * entry at the id's offset in the berry group is the type's key followed
   * by `_BERRY`.
   */
  lemma BerryTypeToHeldItemMatchesName(b: BerryType)
    ensures var id := BerryTypeToHeldItem(b);
            HeldItemIds.Berries[id - HeldItemIds.SitrusBerry] == (BerryTypeName(b) + "_BERRY", id)
  {
    var berries := HeldItemIds.Berries;
    match b
    case Sitrus => assert berries[0] == ("SITRUS_BERRY", 0x0101) && "SITRUS" + "_BERRY" == "SITRUS_BERRY";
    case Lum => assert berries[1] == ("LUM_BERRY", 0x0102) && "LUM" + "_BERRY" == "LUM_BERRY";
    case Enigma => assert berries[2] == ("ENIGMA_BERRY", 0x0103) && "ENIGMA" + "_BERRY" == "ENIGMA_BERRY";
    case Liechi => assert berries[3] == ("LIECHI_BERRY", 0x0104) && "LIECHI" + "_BERRY" == "LIECHI_BERRY";
    case Ganlon => assert berries[4] == ("GANLON_BERRY", 0x0105) && "GANLON" + "_BERRY" == "GANLON_BERRY";
    case Petaya => assert berries[5] == ("PETAYA_BERRY", 0x0106) && "PETAYA" + "_BERRY" == "PETAYA_BERRY";
    case Apicot => assert berries[6] == ("APICOT_BERRY", 0x0107) && "APICOT" + "_BERRY" == "APICOT_BERRY";
    case Salac => assert berries[7] == ("SALAC_BERRY", 0x0108) && "SALAC" + "_BERRY" == "SALAC_BERRY";
    case Lansat => assert berries[8] == ("LANSAT_BERRY", 0x0109) && "LANSAT" + "_BERRY" == "LANSAT_BERRY";
    case Starf => assert berries[9] == ("STARF_BERRY", 0x010A) && "STARF" + "_BERRY" == "STARF_BERRY";
    case Leppa => assert berries[10] == ("LEPPA_BERRY", 0x010B) && "LEPPA" + "_BERRY" == "LEPPA_BERRY";
  }

  /** `getMaxHeldItemCount`: two for LUM, LEPPA, SITRUS and ENIGMA, three for every other berry. */
  function MaxHeldItemCount(b: BerryType): (r: nat)
    ensures r == 2 <==> b in {Lum, Leppa, Sitrus, Enigma}
    ensures r == 3 <==> b !in {Lum, Leppa, Sitrus, Enigma}
  {
    if b in [Lum, Leppa, Sitrus, Enigma] then 2 else 3
  }

  /** ASCII lower-casing, as `toLowerCase` does on the enum keys. */
  function ToLower(c: char): (r: char)
    ensures 'A' <= c <= 'Z' ==> 'a' <= r <= 'z' && r as int == c as int + 32
    ensures !('A' <= c <= 'Z') ==> r == c
  {
    if 'A' <= c <= 'Z' then (c as int - 'A' as int + 'a' as int) as char else c
  }

  function LowerCase(s: string): (r: string)
    ensures |r| == |s|
    ensures forall i :: 0 <= i < |s| ==> r[i] == ToLower(s[i])
  {
    if |s| == 0 then "" else [ToLower(s[0])] + LowerCase(s[1..])
  }

  /** `iconName`: the lower-cased enum key followed by `_berry`. */
  function IconName(b: BerryType): (r: string)
    ensures |r| == |BerryTypeName(b)| + 6
    ensures r[|BerryTypeName(b)|..] == "_berry"
    ensures forall i :: 0 <= i < |BerryTypeName(b)| ==> r[i] == ToLower(BerryTypeName(b)[i])
    ensures forall i :: 0 <= i < |r| ==> !('A' <= r[i] <= 'Z')
  {
    var low := LowerCase(BerryTypeName(b));
    assert (low + "_berry")[|low|..] == "_berry";
    assert forall i :: 0 <= i < |low| ==> !('A' <= low[i] <= 'Z');
    low + "_berry"
  }

  /** An example: the Sitrus Berry's icon. */
  lemma SitrusIcon()
    ensures IconName(Sitrus) == "sitrus_berry"
  {
  }

  /** What `apply` does to the world outside the item, in order. */
  datatype BerryEvent =
    | EffectApplied(berryType: BerryType)                    // the berry's own effect on the holder
    | Consumed(consumed: bool, isPlayer: bool)               // `consume` with the computed flag
    | EatenRecorded(berryType: BerryType, consumed: bool)    // `recordEatenBerry`

  /**
   * The events of one `apply`, given the value the preserve-berry effects
   * left in the holder that starts at false.
   */
  function ApplyEvents(b: BerryType, isPlayer: bool, preserved: bool): (r: seq<BerryEvent>)
    ensures |r| == 3
    ensures r[0] == EffectApplied(b)
    ensures r[1].Consumed? && r[2].EatenRecorded? && r[2].berryType == b
    ensures r[1].consumed == r[2].consumed == !preserved
  {
    var consumed := !preserved;
    [EffectApplied(b), Consumed(consumed, isPlayer), EatenRecorded(b, consumed)]
  }

  class BerryHeldItem {
    const itemType: int
    const maxStackCount: nat
    const berryType: BerryType
    const effects: seq<HeldItemEffect>

    /** The item's id is the berry type's id from `berryTypeToHeldItem`. */
    constructor (berryType: BerryType, maxStackCount: nat := 1)
      ensures itemType == BerryTypeToHeldItem(berryType)
      ensures this.berryType == berryType && this.maxStackCount == maxStackCount
      ensures effects == [Berry]
    {
      itemType := BerryTypeToHeldItem(berryType);
      this.berryType := berryType;
      this.maxStackCount := maxStackCount;
      effects := [Berry];
    }

    /**
     * `apply`: a preserve flag starts false and the preserve-berry effects,
     * which are not part of this model, leave `preserveResult` in it; the
     * berry's effect runs, then the berry is consumed unless preserved, then
     * it is recorded as eaten with the same flag. Always reports success.
     */
    method Apply(log: EventLog, isPlayer: bool, preserveResult: bool) returns (applied: bool)
      modifies log
      ensures applied
      ensures log.events == old(log.events) + ApplyEvents(berryType, isPlayer, preserveResult)
    {
      var preserve := new BooleanHolder(false);
      preserve.value := preserveResult;
      var consumed := !preserve.value;
      log.Record(EffectApplied(berryType));
      log.Record(Consumed(consumed, isPlayer));
      log.Record(EatenRecorded(berryType, consumed));
      return true;
    }
  }

  /** The side effects `apply` has on the holder and the battle, in order. */
  class EventLog {
    var events: seq<BerryEvent>

    constructor ()
      ensures events == []
    {
      events := [];
    }

    method Record(e: BerryEvent)
      modifies this
      ensures events == old(events) + [e]
    {
      events := events + [e];
    }
  }
}
