/**
 * The `HeldItemId` constant table and its reverse map `HeldItemNames`
 * (src/enums/held-item-id.ts). NONE is 0; every other id belongs to one
 * commented group: the high byte numbers the group (berries 0x01, other
 * consumed items 0x02, type boosters 0x03, ...) and the low byte counts from
 * 1 inside it.
 */
module HeldItemIds {

  /** One key of the table with its numeric id. */
  type IdEntry = (string, int)

  const NoneId: int := 0x0000
  const SitrusBerry: int := 0x0101
  const LumBerry: int := 0x0102
  const EnigmaBerry: int := 0x0103
  const LiechiBerry: int := 0x0104
  const GanlonBerry: int := 0x0105
  const PetayaBerry: int := 0x0106
  const ApicotBerry: int := 0x0107
  const SalacBerry: int := 0x0108
  const LansatBerry: int := 0x0109
  const StarfBerry: int := 0x010A
  const LeppaBerry: int := 0x010B
  const SilkScarf: int := 0x0301
  const FairyFeather: int := 0x0312

  /** Berries. */
  const Berries: seq<IdEntry> :=
    [
      ("SITRUS_BERRY", 0x0101),
      ("LUM_BERRY", 0x0102),
      ("ENIGMA_BERRY", 0x0103),
      ("LIECHI_BERRY", 0x0104),
      ("GANLON_BERRY", 0x0105),
      ("PETAYA_BERRY", 0x0106),
      ("APICOT_BERRY", 0x0107),
      ("SALAC_BERRY", 0x0108),
      ("LANSAT_BERRY", 0x0109),
      ("STARF_BERRY", 0x010A),
      ("LEPPA_BERRY", 0x010B)
    ]

  /** Other items that are consumed. */
  const ConsumedItems: seq<IdEntry> :=
    [
      ("REVIVER_SEED", 0x0201),
      ("WHITE_HERB", 0x0202)
    ]

  /** Type Boosters. */
  const TypeBoosters: seq<IdEntry> :=
    [
      ("SILK_SCARF", 0x0301),
      ("BLACK_BELT", 0x0302),
      ("SHARP_BEAK", 0x0303),
      ("POISON_BARB", 0x0304),
      ("SOFT_SAND", 0x0305),
      ("HARD_STONE", 0x0306),
      ("SILVER_POWDER", 0x0307),
      ("SPELL_TAG", 0x0308),
      ("METAL_COAT", 0x0309),
      ("CHARCOAL", 0x030A),
      ("MYSTIC_WATER", 0x030B),
      ("MIRACLE_SEED", 0x030C),
      ("MAGNET", 0x030D),
      ("TWISTED_SPOON", 0x030E),
      ("NEVER_MELT_ICE", 0x030F),
      ("DRAGON_FANG", 0x0310),
      ("BLACK_GLASSES", 0x0311),
      ("FAIRY_FEATHER", 0x0312)
    ]

  /** Stat Boosters. */
  const StatBoosters: seq<IdEntry> :=
    [
      ("EVIOLITE", 0x0401),
      ("LIGHT_BALL", 0x0402),
      ("THICK_CLUB", 0x0403),
      ("METAL_POWDER", 0x0404),
      ("QUICK_POWDER", 0x0405),
      ("DEEP_SEA_SCALE", 0x0406),
      ("DEEP_SEA_TOOTH", 0x0407)
    ]

  /** Crit Boosters. */
  const CritBoosters: seq<IdEntry> :=
    [
      ("SCOPE_LENS", 0x0501),
      ("LEEK", 0x0502)
    ]

  /** Items increasing gains. */
  const GainBoosters: seq<IdEntry> :=
    [
      ("LUCKY_EGG", 0x0601),
      ("GOLDEN_EGG", 0x0602),
      ("SOOTHE_BELL", 0x0603)
    ]

  /** Unique items. */
  const UniqueItems: seq<IdEntry> :=
    [
      ("FOCUS_BAND", 0x0701),
      ("QUICK_CLAW", 0x0702),
      ("KINGS_ROCK", 0x0703),
      ("LEFTOVERS", 0x0704),
      ("SHELL_BELL", 0x0705),
      ("MYSTICAL_ROCK", 0x0706),
      ("WIDE_LENS", 0x0707),
      ("MULTI_LENS", 0x0708),
      ("GOLDEN_PUNCH", 0x0709),
      ("GRIP_CLAW", 0x070A),
      ("TOXIC_ORB", 0x070B),
      ("FLAME_ORB", 0x070C),
      ("SOUL_DEW", 0x070D),
      ("BATON", 0x070E)
    ]

  /** Mini Black Hole. */
  const MiniBlackHole: seq<IdEntry> :=
    [
      ("MINI_BLACK_HOLE", 0x0801)
    ]

  /** Stat boosting items. */
  const StatBoostingItems: seq<IdEntry> :=
    [
      ("HP_UP", 0x0901),
      ("PROTEIN", 0x0902),
      ("IRON", 0x0903),
      ("CALCIUM", 0x0904),
      ("ZINC", 0x0905),
      ("CARBOS", 0x0906),
      ("SHUCKLE_JUICE", 0x0907),
      ("OLD_GATEAU", 0x0908),
      ("MACHO_BRACE", 0x0909)
    ]

  /** Evo trackers. */
  const EvoTrackers: seq<IdEntry> :=
    [
      ("GIMMIGHOUL_EVO_TRACKER", 0x0A01)
    ]

  /** A commented group of the table and the high byte its ids share. */
  datatype IdGroup = IdGroup(highByte: int, entries: seq<IdEntry>)

  /** The groups in declaration order. */
  const HeldItemIdGroups: seq<IdGroup> :=
    [
      IdGroup(0x01, Berries),
      IdGroup(0x02, ConsumedItems),
      IdGroup(0x03, TypeBoosters),
      IdGroup(0x04, StatBoosters),
      IdGroup(0x05, CritBoosters),
      IdGroup(0x06, GainBoosters),
      IdGroup(0x07, UniqueItems),
      IdGroup(0x08, MiniBlackHole),
      IdGroup(0x09, StatBoostingItems),
      IdGroup(0x0A, EvoTrackers)
    ]

  /** `HeldItemId` in declaration order: NONE, then every group. */
  const HeldItemIdTable: seq<IdEntry> := [("NONE", NoneId)] + Flatten(HeldItemIdGroups)

  /** The entries of `groups`, one group after another. */
  function Flatten(groups: seq<IdGroup>): (r: seq<IdEntry>)
    ensures |groups| == 0 ==> r == []
  {
    if |groups| == 0 then [] else groups[0].entries + Flatten(groups[1..])
  }

  /** A group's ids are `highByte` * 256 + 1, + 2, ... with a low byte that fits. */
  predicate WellFormedGroup(g: IdGroup) {
    && 0 < |g.entries| < 256
    && forall k :: 0 <= k < |g.entries| ==> g.entries[k].1 == g.highByte * 256 + k + 1
  }

  /** Ids that strictly increase along the table. */
  predicate StrictlyIncreasing(t: seq<IdEntry>) {
    forall i, j :: 0 <= i < j < |t| ==> t[i].1 < t[j].1
  }

  /** No id appears under two keys. */
  predicate DistinctIds(t: seq<IdEntry>) {
    forall i, j :: 0 <= i < |t| && 0 <= j < |t| && i != j ==> t[i].1 != t[j].1
  }

  /** Every group of the table is well formed and the high bytes count 1, 2, ... */
  lemma GroupsWellFormed()
    ensures |HeldItemIdGroups| == 10
    ensures forall gi :: 0 <= gi < |HeldItemIdGroups| ==> HeldItemIdGroups[gi].highByte == gi + 1
    ensures forall gi :: 0 <= gi < |HeldItemIdGroups| ==> WellFormedGroup(HeldItemIdGroups[gi])
  {
    assert WellFormedGroup(IdGroup(0x01, Berries));
    assert WellFormedGroup(IdGroup(0x02, ConsumedItems));
    assert WellFormedGroup(IdGroup(0x03, TypeBoosters));
    assert WellFormedGroup(IdGroup(0x04, StatBoosters));
    assert WellFormedGroup(IdGroup(0x05, CritBoosters));
    assert WellFormedGroup(IdGroup(0x06, GainBoosters));
    assert WellFormedGroup(IdGroup(0x07, UniqueItems));
    assert WellFormedGroup(IdGroup(0x08, MiniBlackHole));
    assert WellFormedGroup(IdGroup(0x09, StatBoostingItems));
    assert WellFormedGroup(IdGroup(0x0A, EvoTrackers));
  }

  /** Every id of a well-formed group lies strictly inside its high byte's block. */
  lemma GroupBounds(g: IdGroup, k: nat)
    requires WellFormedGroup(g) && k < |g.entries|
    ensures g.highByte * 256 < g.entries[k].1 < (g.highByte + 1) * 256
    ensures g.entries[k].1 / 256 == g.highByte && g.entries[k].1 % 256 == k + 1
  {
  }

  /** Increasing blocks of well-formed groups give a strictly increasing table above the first block's base. */
  lemma {:induction false} FlattenIncreasing(groups: seq<IdGroup>)
    requires forall gi :: 0 <= gi < |groups| ==> WellFormedGroup(groups[gi])
    requires forall gi :: 0 < gi < |groups| ==> groups[gi - 1].highByte < groups[gi].highByte
    ensures StrictlyIncreasing(Flatten(groups))
    ensures |groups| > 0 ==> forall e :: e in Flatten(groups) ==> groups[0].highByte * 256 < e.1
  {
    if |groups| > 0 {
      var g, rest := groups[0], groups[1..];
      FlattenIncreasing(rest);
      assert Flatten(groups) == g.entries + Flatten(rest);
      forall i | 0 <= i < |g.entries|
        ensures g.highByte * 256 < g.entries[i].1 < (g.highByte + 1) * 256
      {
        GroupBounds(g, i);
      }
      if |rest| > 0 {
        assert rest[0] == groups[1];
        assert (g.highByte + 1) * 256 <= rest[0].highByte * 256;
      }
      ConcatIncreasing(g.entries, Flatten(rest), (g.highByte + 1) * 256);
    }
  }

  /** Two strictly increasing runs separated by `bound` concatenate to a strictly increasing run. */
  lemma ConcatIncreasing(a: seq<IdEntry>, b: seq<IdEntry>, bound: int)
    requires forall i, j :: 0 <= i < j < |a| ==> a[i].1 < a[j].1
    requires StrictlyIncreasing(b)
    requires forall e :: e in a ==> e.1 < bound
    requires forall e :: e in b ==> bound <= e.1
    ensures StrictlyIncreasing(a + b)
  {
    var t := a + b;
    forall i, j | 0 <= i < j < |t|
      ensures t[i].1 < t[j].1
    {
      if j < |a| {
      } else if i < |a| {
        assert t[i] in a && t[j] in b;
      } else {
        assert t[i] == b[i - |a|] && t[j] == b[j - |a|];
      }
    }
  }

  /** Within a well-formed group the ids climb by one. */
  lemma GroupIncreasing(g: IdGroup)
    requires WellFormedGroup(g)
    ensures forall i, j :: 0 <= i < j < |g.entries| ==> g.entries[i].1 < g.entries[j].1
  {
  }

  /** All `HeldItemId` values are distinct (indeed strictly increasing), and NONE = 0 comes first. */
  lemma HeldItemIdsDistinct()
    ensures HeldItemIdTable[0] == ("NONE", 0)
    ensures StrictlyIncreasing(HeldItemIdTable)
    ensures DistinctIds(HeldItemIdTable)
  {
    GroupsWellFormed();
    FlattenIncreasing(HeldItemIdGroups);
    ConcatIncreasing([("NONE", NoneId)], Flatten(HeldItemIdGroups), 1);
    var t := HeldItemIdTable;
    forall i, j | 0 <= i < |t| && 0 <= j < |t| && i != j
      ensures t[i].1 != t[j].1
    {
      if i < j { assert t[i].1 < t[j].1; } else { assert t[j].1 < t[i].1; }
    }
  }

  /** Berries occupy 0x0101..0x010B and type boosters 0x0301..0x0312, without gaps. */
  lemma GroupRanges()
    ensures |Berries| == 11 && forall k :: 0 <= k < |Berries| ==> Berries[k].1 == 0x0101 + k
    ensures |TypeBoosters| == 18 && forall k :: 0 <= k < |TypeBoosters| ==> TypeBoosters[k].1 == 0x0301 + k
    ensures Berries[0] == ("SITRUS_BERRY", SitrusBerry) && Berries[10] == ("LEPPA_BERRY", LeppaBerry)
    ensures TypeBoosters[0] == ("SILK_SCARF", SilkScarf) && TypeBoosters[17] == ("FAIRY_FEATHER", FairyFeather)
  {
    GroupsWellFormed();
    assert HeldItemIdGroups[0] == IdGroup(0x01, Berries);
    assert HeldItemIdGroups[2] == IdGroup(0x03, TypeBoosters);
  }

  /**
   * The accumulator `HeldItemNames` after the reduce has visited `entries`:
   * each step writes key under value, so a later key overwrites an earlier
   * one with the same value.
   */
  function NamesOf(entries: seq<IdEntry>): map<int, string>
  {
    if |entries| == 0 then map[]
    else NamesOf(entries[..|entries| - 1])[entries[|entries| - 1].1 := entries[|entries| - 1].0]
  }

  /** The reduce's keys are exactly the table's values. */
  lemma {:induction false} NamesOfDomain(entries: seq<IdEntry>)
    ensures forall v :: v in NamesOf(entries) <==> exists k :: 0 <= k < |entries| && entries[k].1 == v
    ensures forall k :: 0 <= k < |entries| ==> entries[k].1 in NamesOf(entries)
  {
    if |entries| > 0 {
      var init := entries[..|entries| - 1];
      NamesOfDomain(init);
      forall v | v in NamesOf(entries)
        ensures exists k :: 0 <= k < |entries| && entries[k].1 == v
      {
        if v != entries[|entries| - 1].1 {
          assert v in NamesOf(init);
          var k :| 0 <= k < |init| && init[k].1 == v;
          assert entries[k].1 == v;
        }
      }
      forall v | exists k :: 0 <= k < |entries| && entries[k].1 == v
        ensures v in NamesOf(entries)
      {
        var k :| 0 <= k < |entries| && entries[k].1 == v;
        if k < |init| {
          assert init[k].1 == v;
        }
      }
    }
  }

  /** With distinct values, `HeldItemNames` inverts the table: the name stored under a key's value is that key. */
  lemma {:induction false} NamesOfInverts(entries: seq<IdEntry>)
    requires DistinctIds(entries)
    ensures forall k :: 0 <= k < |entries| ==> entries[k].1 in NamesOf(entries) && NamesOf(entries)[entries[k].1] == entries[k].0
  {
    if |entries| > 0 {
      var init := entries[..|entries| - 1];
      assert DistinctIds(init) by {
        forall i, j | 0 <= i < |init| && 0 <= j < |init| && i != j
          ensures init[i].1 != init[j].1
        {
          assert init[i] == entries[i] && init[j] == entries[j];
        }
      }
      NamesOfInverts(init);
      forall k | 0 <= k < |entries|
        ensures entries[k].1 in NamesOf(entries) && NamesOf(entries)[entries[k].1] == entries[k].0
      {
        if k < |init| {
          assert init[k] == entries[k];
          assert entries[k].1 != entries[|entries| - 1].1;
        }
      }
    }
  }

  /** `HeldItemNames[HeldItemId[k]] == k` for every key k, and its keys are exactly the ids. */
  lemma HeldItemNamesInvertsHeldItemId()
    ensures forall k :: 0 <= k < |HeldItemIdTable| ==>
              HeldItemIdTable[k].1 in NamesOf(HeldItemIdTable) &&
              NamesOf(HeldItemIdTable)[HeldItemIdTable[k].1] == HeldItemIdTable[k].0
    ensures forall v :: v in NamesOf(HeldItemIdTable) <==> exists k :: 0 <= k < |HeldItemIdTable| && HeldItemIdTable[k].1 == v
  {
    HeldItemIdsDistinct();
    NamesOfInverts(HeldItemIdTable);
    NamesOfDomain(HeldItemIdTable);
  }

  /** The reduce that builds `HeldItemNames`, writing one key per step into the accumulator. */
  method BuildHeldItemNames(entries: seq<IdEntry>) returns (names: map<int, string>)
    ensures names == NamesOf(entries)
    ensures forall k :: 0 <= k < |entries| ==> entries[k].1 in names
    ensures DistinctIds(entries) ==> forall k :: 0 <= k < |entries| ==> names[entries[k].1] == entries[k].0
  {
    names := map[];
    var i := 0;
    while i < |entries|
      invariant 0 <= i <= |entries|
      invariant names == NamesOf(entries[..i])
    {
      assert entries[..i + 1][..i] == entries[..i];
      names := names[entries[i].1 := entries[i].0];
      i := i + 1;
    }
    assert entries[..i] == entries;
    NamesOfDomain(entries);
    if DistinctIds(entries) {
      NamesOfInverts(entries);
    }
  }
}
