/**
 * The decision logic of the Bug-Type Superfan mystery encounter
 * (`src/data/mystery-encounters/encounters/bug-type-superfan-encounter.ts`):
 * the wave breakpoints that pick the trainer's party layout, the draws from
 * the shuffled pool of mega/special bugs, the rewards for showing off Bug
 * types, the four tutor moves, the tutor's hand-over to a learn-move phase and
 * the item filters of the trade option.
 *
 * Random numbers and shuffles are inputs: a roll for `randSeedInt(n)` is a
 * number below `n`, and a shuffle result is any permutation of its argument.
 */
module BugTypeSuperfan {
  import opened Wrappers
  import HeldItems

  type Species = string
  type Move = string

  const Beedrill: Species := "BEEDRILL"
  const Butterfree: Species := "BUTTERFREE"

  const Pool1: seq<Species> := [
    "PARASECT", "VENOMOTH", "LEDIAN", "ARIADOS", "YANMA", "BEAUTIFLY",
    "DUSTOX", "MASQUERAIN", "NINJASK", "VOLBEAT", "ILLUMISE", "ANORITH",
    "KRICKETUNE", "WORMADAM", "MOTHIM", "SKORUPI", "JOLTIK", "LARVESTA",
    "VIVILLON", "CHARJABUG", "RIBOMBEE", "SPIDOPS", "LOKIX"]

  const Pool2: seq<Species> := [
    "SCYTHER", "PINSIR", "HERACROSS", "FORRETRESS", "SCIZOR", "SHUCKLE",
    "SHEDINJA", "ARMALDO", "VESPIQUEN", "DRAPION", "YANMEGA", "LEAVANNY",
    "SCOLIPEDE", "CRUSTLE", "ESCAVALIER", "ACCELGOR", "GALVANTULA",
    "VIKAVOLT", "ARAQUANID", "ORBEETLE", "CENTISKORCH", "FROSMOTH", "KLEAVOR"]

  /** An entry of the third pool: a species and, for the mega/gigantamax ones, its form. */
  datatype Pool3Entry = Pool3Entry(species: Species, formIndex: Option<nat>)

  const Pool3: seq<Pool3Entry> := [
    Pool3Entry("PINSIR", Some(1)), Pool3Entry("SCIZOR", Some(1)),
    Pool3Entry("HERACROSS", Some(1)), Pool3Entry("ORBEETLE", Some(1)),
    Pool3Entry("CENTISKORCH", Some(1)), Pool3Entry("DURANT", None),
    Pool3Entry("VOLCARONA", None), Pool3Entry("GOLISOPOD", None)]

  const Pool4: seq<Species> := ["GENESECT", "SLITHER_WING", "BUZZWOLE", "PHEROMOSA"]

  const PhysicalTutorMoves: seq<Move> :=
    ["MEGAHORN", "ATTACK_ORDER", "BUG_BITE", "FIRST_IMPRESSION", "LUNGE"]
  const SpecialTutorMoves: seq<Move> :=
    ["SILVER_WIND", "SIGNAL_BEAM", "BUG_BUZZ", "POLLEN_PUFF", "STRUGGLE_BUG"]
  const StatusTutorMoves: seq<Move> :=
    ["STRING_SHOT", "DEFEND_ORDER", "RAGE_POWDER", "STICKY_WEB", "SILK_TRAP"]
  const MiscTutorMoves: seq<Move> :=
    ["LEECH_LIFE", "U_TURN", "HEAL_ORDER", "QUIVER_DANCE", "INFESTATION"]

  const WaveLevelBreakpoints: seq<int> := [30, 50, 70, 100, 120, 140, 160]

  // ---------------------------------------------------------------------------
  // Party layout by wave
  // ---------------------------------------------------------------------------

  /** A party template: so many average members followed by so many strong ones. */
  datatype PartyTemplate = PartyTemplate(average: nat, strong: nat)
  {
    function Size(): nat { average + strong }
  }

  /**
   * What one `getRandomPartyMemberFunc` call is given: the species pool it
   * draws from, and the form index and boss segments its post-processing sets.
   */
  datatype MemberFunc = MemberFunc(pool: seq<Species>, formIndex: Option<nat>, bossSegments: Option<nat>)

  function Plain(pool: seq<Species>): MemberFunc { MemberFunc(pool, None, None) }

  /** A mega / gigantamax lead: form 1, and from the last breakpoint a 2-segment boss. */
  function Lead(species: Species, boss: bool): MemberFunc
  {
    MemberFunc([species], Some(1), if boss then Some(2) else None)
  }

  /** A member drawn from the third pool keeps the entry's form when it has one. */
  function Drawn(e: Pool3Entry): MemberFunc { MemberFunc([e.species], e.formIndex, None) }

  /** The template the branch installs (`None`: the registered one is kept) and slots 0, 1, ... in order. */
  datatype Layout = Layout(template: Option<PartyTemplate>, members: seq<MemberFunc>)

  /** The layout `getTrainerConfigForWave` sets up, given the first and second pool-3 draws. */
  function LayoutForWave(wave: int, pool3Mon: Pool3Entry, pool3Mon2: Pool3Entry): (l: Layout)
    ensures |l.members| >= 2 && l.members[0].pool == [Beedrill] && l.members[1].pool == [Butterfree]
  {
    var bp := WaveLevelBreakpoints;
    if wave < bp[0] then
      Layout(None, [Plain([Beedrill]), Plain([Butterfree])])
    else if wave < bp[1] then
      Layout(Some(PartyTemplate(3, 0)), [Plain([Beedrill]), Plain([Butterfree]), Plain(Pool1)])
    else if wave < bp[2] then
      Layout(Some(PartyTemplate(4, 0)),
             [Plain([Beedrill]), Plain([Butterfree]), Plain(Pool1), Plain(Pool2)])
    else if wave < bp[3] then
      Layout(Some(PartyTemplate(5, 0)),
             [Plain([Beedrill]), Plain([Butterfree]), Plain(Pool1), Plain(Pool2), Plain(Pool2)])
    else if wave < bp[4] then
      Layout(Some(PartyTemplate(5, 0)),
             [Lead(Beedrill, false), Lead(Butterfree, false), Plain(Pool2), Plain(Pool2), Drawn(pool3Mon)])
    else if wave < bp[5] then
      Layout(Some(PartyTemplate(5, 0)),
             [Lead(Beedrill, false), Lead(Butterfree, false), Plain(Pool2), Drawn(pool3Mon), Drawn(pool3Mon2)])
    else if wave < bp[6] then
      Layout(Some(PartyTemplate(4, 1)),
             [Lead(Beedrill, false), Lead(Butterfree, false), Plain(Pool2), Drawn(pool3Mon), Plain(Pool4)])
    else
      Layout(Some(PartyTemplate(4, 1)),
             [Lead(Beedrill, true), Lead(Butterfree, true), Drawn(pool3Mon), Drawn(pool3Mon2), Plain(Pool4)])
  }

  /** How many breakpoints a wave has reached: the index of the branch it takes. */
  function BreakpointsReached(bps: seq<int>, wave: int): (n: nat)
    ensures n <= |bps|
  {
    if bps == [] then 0
    else (if bps[|bps| - 1] <= wave then 1 else 0) + BreakpointsReached(bps[..|bps| - 1], wave)
  }

  predicate StrictlyIncreasing(s: seq<int>)
  {
    forall i, j :: 0 <= i < j < |s| ==> s[i] < s[j]
  }

  /** On increasing breakpoints, the reached ones are exactly a prefix. */
  lemma {:induction false} ReachedIsPrefix(bps: seq<int>, wave: int)
    requires StrictlyIncreasing(bps)
    ensures forall k :: 0 <= k < |bps| ==>
              (k < BreakpointsReached(bps, wave) <==> bps[k] <= wave)
  {
    if bps != [] {
      var init := bps[..|bps| - 1];
      assert StrictlyIncreasing(init);
      ReachedIsPrefix(init, wave);
      forall k | 0 <= k < |bps|
        ensures k < BreakpointsReached(bps, wave) <==> bps[k] <= wave
      {
        if k < |bps| - 1 {
          assert bps[k] == init[k];
          if bps[|bps| - 1] <= wave {
            assert bps[k] < bps[|bps| - 1];
          }
        } else if bps[k] > wave {
          if BreakpointsReached(init, wave) > 0 {
            assert init[0] <= wave;
            assert bps[0] < bps[k];
          }
        }
      }
    }
  }

  /** The branch the layout takes: each breakpoint reached moves it one branch on. */
  function Branch(wave: int): (b: nat)
    ensures b <= |WaveLevelBreakpoints|
  {
    BreakpointsReached(WaveLevelBreakpoints, wave)
  }

  /**
   * Exactly one branch applies to a wave: the breakpoints increase, and the
   * branch `b` taken is the one whose breakpoints below `b` are reached and
   * whose breakpoint `b` is not.
   */
  lemma ExactlyOneBranch(wave: int, b: nat)
    ensures StrictlyIncreasing(WaveLevelBreakpoints)
    ensures b == Branch(wave) <==>
              b <= |WaveLevelBreakpoints| &&
              (forall k :: 0 <= k < b ==> WaveLevelBreakpoints[k] <= wave) &&
              (b < |WaveLevelBreakpoints| ==> wave < WaveLevelBreakpoints[b])
  {
    var bps := WaveLevelBreakpoints;
    assert StrictlyIncreasing(bps);
    ReachedIsPrefix(bps, wave);
    var r := Branch(wave);
    if b <= |bps| && (forall k :: 0 <= k < b ==> bps[k] <= wave) && (b < |bps| ==> wave < bps[b]) {
      if b < |bps| {
        assert wave < bps[b];
        assert b >= r;
      }
      if r < |bps| {
        assert wave < bps[r];
        assert r >= b;
      }
    }
  }

  /** The if/else chain of the layout follows the breakpoint count. */
  lemma LayoutFollowsBranch(wave: int, m1: Pool3Entry, m2: Pool3Entry)
    ensures var l := LayoutForWave(wave, m1, m2);
            (Branch(wave) == 0 <==> l.template == None) &&
            (Branch(wave) <= 3 ==> l.members[0] == Plain([Beedrill])) &&
            (Branch(wave) == 7 <==> l.members[0].bossSegments == Some(2))
  {
    var bps := WaveLevelBreakpoints;
    ExactlyOneBranch(wave, Branch(wave));
    ReachedIsPrefix(bps, wave);
  }

  /** Every slot of the template has a member function, and no more (the registered template is 2 average). */
  lemma SlotsFillTemplate(wave: int, m1: Pool3Entry, m2: Pool3Entry)
    ensures var l := LayoutForWave(wave, m1, m2);
            |l.members| == (match l.template case None => 2 case Some(t) => t.Size())
  {
  }

  /** Waves 30-49, 50-69 and 70-99 use 3, 4 and 5 average members; 100-139 five average; from 140 four average and one strong. */
  lemma TemplateByWave(wave: int, m1: Pool3Entry, m2: Pool3Entry)
    ensures var t := LayoutForWave(wave, m1, m2).template;
            (wave < 30 ==> t == None) &&
            (30 <= wave < 50 ==> t == Some(PartyTemplate(3, 0))) &&
            (50 <= wave < 70 ==> t == Some(PartyTemplate(4, 0))) &&
            (70 <= wave < 140 ==> t == Some(PartyTemplate(5, 0))) &&
            (140 <= wave ==> t == Some(PartyTemplate(4, 1)))
  {
  }

  /**
   * Slots 0 and 1 are always Beedrill and Butterfree; they take form 1 exactly
   * from wave 100 and are 2-segment bosses exactly from wave 160.
   */
  lemma LeadsByWave(wave: int, m1: Pool3Entry, m2: Pool3Entry)
    ensures var ms := LayoutForWave(wave, m1, m2).members;
            |ms| >= 2 &&
            ms[0].pool == [Beedrill] && ms[1].pool == [Butterfree] &&
            (forall i :: 0 <= i < 2 ==>
               (ms[i].formIndex == Some(1) <==> wave >= 100) &&
               (ms[i].formIndex != Some(1) ==> ms[i].formIndex == None) &&
               (ms[i].bossSegments == Some(2) <==> wave >= 160) &&
               (ms[i].bossSegments != Some(2) ==> ms[i].bossSegments == None))
  {
  }

  /** The form the intro shows for Beedrill and Butterfree. */
  function IntroSpriteForm(wave: int): (form: nat)
    ensures form <= 1
    ensures form == 1 <==> wave >= 100
  {
    if wave < WaveLevelBreakpoints[3] then 0 else 1
  }

  /** The intro sprites show form 1 exactly when the party's leads have form 1. */
  lemma IntroMatchesParty(wave: int, m1: Pool3Entry, m2: Pool3Entry)
    ensures var ms := LayoutForWave(wave, m1, m2).members;
            |ms| >= 2 &&
            (IntroSpriteForm(wave) == 1 <==> ms[0].formIndex == Some(1)) &&
            (IntroSpriteForm(wave) == 1 <==> ms[1].formIndex == Some(1))
  {
    LeadsByWave(wave, m1, m2);
  }

  /** Where the pool-3 draws go: the second draw is used only in waves 120-139 and from 160. */
  lemma Pool3Slots(wave: int, m1: Pool3Entry, m2: Pool3Entry)
    requires m1 in Pool3 && m2 in Pool3
    ensures var ms := LayoutForWave(wave, m1, m2).members;
            (wave < 100 ==> forall i :: 0 <= i < |ms| ==> ms[i].pool != [m1.species] && ms[i].pool != [m2.species]) &&
            (100 <= wave < 120 ==> ms[4] == Drawn(m1) && forall i :: 0 <= i < 4 ==> ms[i].pool != [m2.species]) &&
            (120 <= wave < 140 ==> ms[3] == Drawn(m1) && ms[4] == Drawn(m2)) &&
            (140 <= wave < 160 ==> ms[3] == Drawn(m1) && forall i :: 0 <= i < 5 && i != 3 ==> ms[i].pool != [m2.species]) &&
            (160 <= wave ==> ms[2] == Drawn(m1) && ms[3] == Drawn(m2))
  {
    Pool3NotLead(m1);
    Pool3NotLead(m2);
    assert |Pool1| == 23 && |Pool2| == 23 && |Pool4| == 4;
    var ms := LayoutForWave(wave, m1, m2).members;
    if wave < 100 {
      assert forall i :: 0 <= i < |ms| ==> ms[i].pool in {[Beedrill], [Butterfree], Pool1, Pool2};
    } else if wave < 120 {
      assert forall i :: 0 <= i < 4 ==> ms[i].pool in {[Beedrill], [Butterfree], Pool2};
    } else if 140 <= wave < 160 {
      assert forall i :: 0 <= i < 5 && i != 3 ==> ms[i].pool in {[Beedrill], [Butterfree], Pool2, Pool4};
    }
  }

  lemma Pool3NotLead(m: Pool3Entry)
    requires m in Pool3
    ensures m.species != Beedrill && m.species != Butterfree
  {
  }

  /** `pop` on the shuffled copy: the last element. */
  function Last<T>(s: seq<T>): T
    requires |s| > 0
  {
    s[|s| - 1]
  }

  /** No element occurs twice, stated through multiplicities so that permutations keep it. */
  ghost predicate NoRepeats<T(!new)>(s: seq<T>)
  {
    forall x :: multiset(s)[x] <= 1
  }

  lemma {:induction false} DistinctHasNoRepeats<T(!new)>(s: seq<T>)
    requires forall i, j :: 0 <= i < j < |s| ==> s[i] != s[j]
    ensures NoRepeats(s)
  {
    if s != [] {
      var t := s[1..];
      DistinctHasNoRepeats(t);
      assert s == [s[0]] + t;
      assert forall j :: 0 <= j < |t| ==> t[j] == s[j + 1];
      assert s[0] !in t;
      forall x ensures multiset(s)[x] <= 1 {
        assert multiset(s) == multiset{s[0]} + multiset(t);
      }
    }
  }

  lemma Pool3NoRepeats()
    ensures NoRepeats(Pool3)
  {
    assert forall i, j :: 0 <= i < j < |Pool3| ==> Pool3[i] != Pool3[j];
    DistinctHasNoRepeats(Pool3);
  }

  lemma Pool3SpeciesDiffer(a: Pool3Entry, b: Pool3Entry)
    requires a in Pool3 && b in Pool3 && a != b
    ensures a.species != b.species
  {
  }

  /** Two successive pops, with a reshuffle between them, from a pool without repeats give two different elements. */
  lemma PopsDiffer<T(!new)>(pool: seq<T>, shuffled: seq<T>, reshuffled: seq<T>)
    requires NoRepeats(pool)
    requires multiset(shuffled) == multiset(pool)
    requires |shuffled| > 1 && multiset(reshuffled) == multiset(shuffled[..|shuffled| - 1])
    ensures |reshuffled| > 0
    ensures Last(shuffled) in pool && Last(reshuffled) in pool
    ensures Last(shuffled) != Last(reshuffled)
  {
    var n := |shuffled|;
    assert shuffled == shuffled[..n - 1] + [Last(shuffled)];
    assert multiset(shuffled) == multiset(shuffled[..n - 1]) + multiset{Last(shuffled)};
    assert |reshuffled| == n - 1 by {
      assert |multiset(reshuffled)| == |multiset(shuffled[..n - 1])|;
    }
    assert Last(shuffled) in multiset(pool);
    assert Last(reshuffled) in multiset(reshuffled);
    assert Last(reshuffled) in multiset(pool);
    assert multiset(pool)[Last(shuffled)] <= 1;
    assert Last(shuffled) !in multiset(shuffled[..n - 1]);
  }

  /**
   * The two draws from the third pool are different entries with different
   * species: the second is popped from what the first pop left, whatever the
   * two shuffles did.
   */
  lemma Pool3DrawsDiffer(shuffled: seq<Pool3Entry>, reshuffled: seq<Pool3Entry>)
    requires multiset(shuffled) == multiset(Pool3)
    requires |shuffled| > 0 && multiset(reshuffled) == multiset(shuffled[..|shuffled| - 1])
    ensures |reshuffled| > 0
    ensures Last(shuffled) in Pool3 && Last(reshuffled) in Pool3
    ensures Last(shuffled).species != Last(reshuffled).species
  {
    assert |shuffled| == |Pool3| by {
      assert |multiset(shuffled)| == |multiset(Pool3)|;
    }
    Pool3NoRepeats();
    PopsDiffer(Pool3, shuffled, reshuffled);
    Pool3SpeciesDiffer(Last(shuffled), Last(reshuffled));
  }

  /** In waves 120-139 and from 160 the two drawn members are different species. */
  lemma DrawnMembersDiffer(wave: int, shuffled: seq<Pool3Entry>, reshuffled: seq<Pool3Entry>)
    requires multiset(shuffled) == multiset(Pool3)
    requires |shuffled| > 0 && multiset(reshuffled) == multiset(shuffled[..|shuffled| - 1])
    requires wave >= 120 && !(140 <= wave < 160)
    ensures |reshuffled| > 0
    ensures var ms := LayoutForWave(wave, Last(shuffled), Last(reshuffled)).members;
            |ms| == 5 &&
            (if wave < 140 then ms[3].pool != ms[4].pool else ms[2].pool != ms[3].pool)
  {
    Pool3DrawsDiffer(shuffled, reshuffled);
    var ms := LayoutForWave(wave, Last(shuffled), Last(reshuffled)).members;
    if wave < 140 {
      assert ms[3].pool[0] != ms[4].pool[0];
    } else {
      assert ms[2].pool[0] != ms[3].pool[0];
    }
  }

  /** Slot `i` of the configuration holds `members[i]`. */
  function Slots(members: seq<MemberFunc>): (m: map<nat, MemberFunc>)
    ensures forall i: nat :: i in m <==> i < |members|
    ensures forall i: nat :: i < |members| ==> m[i] == members[i]
  {
    map i: nat | i < |members| :: members[i]
  }

  /** The setter chain on slots 0 and 1. */
  lemma SlotsTwo(base: map<nat, MemberFunc>, f0: MemberFunc, f1: MemberFunc)
    ensures base[0 := f0][1 := f1] == base + Slots([f0, f1])
  {
    var left := base[0 := f0][1 := f1];
    var right := base + Slots([f0, f1]);
    assert left.Keys == right.Keys;
  }

  lemma SlotsThree(base: map<nat, MemberFunc>, f0: MemberFunc, f1: MemberFunc, f2: MemberFunc)
    ensures base[0 := f0][1 := f1][2 := f2] == base + Slots([f0, f1, f2])
  {
    var left := base[0 := f0][1 := f1][2 := f2];
    var right := base + Slots([f0, f1, f2]);
    assert left.Keys == right.Keys;
  }

  lemma SlotsFour(base: map<nat, MemberFunc>, f0: MemberFunc, f1: MemberFunc, f2: MemberFunc, f3: MemberFunc)
    ensures base[0 := f0][1 := f1][2 := f2][3 := f3] == base + Slots([f0, f1, f2, f3])
  {
    var left := base[0 := f0][1 := f1][2 := f2][3 := f3];
    var right := base + Slots([f0, f1, f2, f3]);
    assert left.Keys == right.Keys;
  }

  lemma SlotsFive(base: map<nat, MemberFunc>, f0: MemberFunc, f1: MemberFunc, f2: MemberFunc, f3: MemberFunc,
                  f4: MemberFunc)
    ensures base[0 := f0][1 := f1][2 := f2][3 := f3][4 := f4] == base + Slots([f0, f1, f2, f3, f4])
  {
    var left := base[0 := f0][1 := f1][2 := f2][3 := f3][4 := f4];
    var right := base + Slots([f0, f1, f2, f3, f4]);
    assert left.Keys == right.Keys;
  }

  /** A trainer configuration, as far as this encounter changes it. */
  class TrainerConfig {
    var name: string
    var partyTemplate: PartyTemplate
    var partyMemberFuncs: map<nat, MemberFunc>

    constructor (name: string, partyTemplate: PartyTemplate, partyMemberFuncs: map<nat, MemberFunc>)
      ensures this.name == name && this.partyTemplate == partyTemplate
      ensures this.partyMemberFuncs == partyMemberFuncs
    {
      this.name := name;
      this.partyTemplate := partyTemplate;
      this.partyMemberFuncs := partyMemberFuncs;
    }

    method Clone() returns (c: TrainerConfig)
      ensures fresh(c)
      ensures c.name == name && c.partyTemplate == partyTemplate && c.partyMemberFuncs == partyMemberFuncs
    {
      c := new TrainerConfig(name, partyTemplate, partyMemberFuncs);
    }

    method SetPartyTemplates(t: PartyTemplate)
      modifies this
      ensures partyTemplate == t
      ensures name == old(name) && partyMemberFuncs == old(partyMemberFuncs)
    {
      partyTemplate := t;
    }

    method SetPartyMemberFunc(slot: nat, f: MemberFunc)
      modifies this
      ensures partyMemberFuncs == old(partyMemberFuncs)[slot := f]
      ensures name == old(name) && partyTemplate == old(partyTemplate)
    {
      partyMemberFuncs := partyMemberFuncs[slot := f];
    }
  }

  /**
   * `getTrainerConfigForWave`: clone the registered configuration, name it,
   * pop a first pool-3 entry from the shuffled pool, and in waves 120-139 and
   * from 160 reshuffle what is left and pop a second one; then install the
   * wave's template and member functions.
   */
  method GetTrainerConfigForWave(registered: TrainerConfig, wave: int, name: string,
                                 shuffled: seq<Pool3Entry>, reshuffled: seq<Pool3Entry>)
    returns (config: TrainerConfig)
    requires multiset(shuffled) == multiset(Pool3)
    requires |shuffled| > 0 && multiset(reshuffled) == multiset(shuffled[..|shuffled| - 1])
    ensures fresh(config)
    ensures |reshuffled| > 0
    ensures var l := LayoutForWave(wave, Last(shuffled), Last(reshuffled));
            config.name == name &&
            config.partyTemplate == l.template.GetOr(registered.partyTemplate) &&
            config.partyMemberFuncs == registered.partyMemberFuncs + Slots(l.members)
  {
    assert |reshuffled| > 0 by {
      assert |multiset(shuffled)| == |multiset(Pool3)|;
      assert |multiset(reshuffled)| == |shuffled| - 1;
    }
    config := registered.Clone();
    config.name := name;

    var pool3Copy := shuffled;
    var pool3Mon := pool3Copy[|pool3Copy| - 1];
    pool3Copy := pool3Copy[..|pool3Copy| - 1];
    assert pool3Mon == Last(shuffled);

    if wave < WaveLevelBreakpoints[3] {
      SetEarlyWaveLayout(config, wave, pool3Mon, Last(reshuffled));
    } else {
      SetLateWaveLayout(config, wave, pool3Mon, reshuffled);
    }
  }

  /** The branches of `getTrainerConfigForWave` below wave 100, which use no pool-3 draw. */
  method SetEarlyWaveLayout(config: TrainerConfig, wave: int, pool3Mon: Pool3Entry, pool3Mon2: Pool3Entry)
    requires wave < WaveLevelBreakpoints[3]
    modifies config
    ensures var l := LayoutForWave(wave, pool3Mon, pool3Mon2);
            config.name == old(config.name) &&
            config.partyTemplate == l.template.GetOr(old(config.partyTemplate)) &&
            config.partyMemberFuncs == old(config.partyMemberFuncs) + Slots(l.members)
  {
    ghost var base := config.partyMemberFuncs;
    var bp := WaveLevelBreakpoints;
    if wave < bp[0] {
      config.SetPartyMemberFunc(0, Plain([Beedrill]));
      config.SetPartyMemberFunc(1, Plain([Butterfree]));
      SlotsTwo(base, Plain([Beedrill]), Plain([Butterfree]));
    } else if wave < bp[1] {
      config.SetPartyTemplates(PartyTemplate(3, 0));
      config.SetPartyMemberFunc(0, Plain([Beedrill]));
      config.SetPartyMemberFunc(1, Plain([Butterfree]));
      config.SetPartyMemberFunc(2, Plain(Pool1));
      SlotsThree(base, Plain([Beedrill]), Plain([Butterfree]), Plain(Pool1));
    } else if wave < bp[2] {
      config.SetPartyTemplates(PartyTemplate(4, 0));
      config.SetPartyMemberFunc(0, Plain([Beedrill]));
      config.SetPartyMemberFunc(1, Plain([Butterfree]));
      config.SetPartyMemberFunc(2, Plain(Pool1));
      config.SetPartyMemberFunc(3, Plain(Pool2));
      SlotsFour(base, Plain([Beedrill]), Plain([Butterfree]), Plain(Pool1), Plain(Pool2));
    } else {
      config.SetPartyTemplates(PartyTemplate(5, 0));
      config.SetPartyMemberFunc(0, Plain([Beedrill]));
      config.SetPartyMemberFunc(1, Plain([Butterfree]));
      config.SetPartyMemberFunc(2, Plain(Pool1));
      config.SetPartyMemberFunc(3, Plain(Pool2));
      config.SetPartyMemberFunc(4, Plain(Pool2));
      SlotsFive(base, Plain([Beedrill]), Plain([Butterfree]), Plain(Pool1), Plain(Pool2), Plain(Pool2));
    }
  }

  /**
   * The branches of `getTrainerConfigForWave` from wave 100, which place the
   * first pool-3 draw and, in waves 120-139 and from 160, pop a second one
   * from the reshuffled pool.
   */
  method SetLateWaveLayout(config: TrainerConfig, wave: int, pool3Mon: Pool3Entry, reshuffled: seq<Pool3Entry>)
    requires wave >= WaveLevelBreakpoints[3] && |reshuffled| > 0
    modifies config
    ensures var l := LayoutForWave(wave, pool3Mon, Last(reshuffled));
            config.name == old(config.name) &&
            config.partyTemplate == l.template.GetOr(old(config.partyTemplate)) &&
            config.partyMemberFuncs == old(config.partyMemberFuncs) + Slots(l.members)
  {
    ghost var base := config.partyMemberFuncs;
    var bp := WaveLevelBreakpoints;
    var pool3Copy: seq<Pool3Entry>;
    if wave < bp[4] {
      config.SetPartyTemplates(PartyTemplate(5, 0));
      config.SetPartyMemberFunc(0, Lead(Beedrill, false));
      config.SetPartyMemberFunc(1, Lead(Butterfree, false));
      config.SetPartyMemberFunc(2, Plain(Pool2));
      config.SetPartyMemberFunc(3, Plain(Pool2));
      config.SetPartyMemberFunc(4, Drawn(pool3Mon));
      SlotsFive(base, Lead(Beedrill, false), Lead(Butterfree, false), Plain(Pool2), Plain(Pool2), Drawn(pool3Mon));
    } else if wave < bp[5] {
      pool3Copy := reshuffled;
      var pool3Mon2 := pool3Copy[|pool3Copy| - 1];
      pool3Copy := pool3Copy[..|pool3Copy| - 1];
      config.SetPartyTemplates(PartyTemplate(5, 0));
      config.SetPartyMemberFunc(0, Lead(Beedrill, false));
      config.SetPartyMemberFunc(1, Lead(Butterfree, false));
      config.SetPartyMemberFunc(2, Plain(Pool2));
      config.SetPartyMemberFunc(3, Drawn(pool3Mon));
      config.SetPartyMemberFunc(4, Drawn(pool3Mon2));
      SlotsFive(base, Lead(Beedrill, false), Lead(Butterfree, false), Plain(Pool2), Drawn(pool3Mon), Drawn(pool3Mon2));
    } else if wave < bp[6] {
      config.SetPartyTemplates(PartyTemplate(4, 1));
      config.SetPartyMemberFunc(0, Lead(Beedrill, false));
      config.SetPartyMemberFunc(1, Lead(Butterfree, false));
      config.SetPartyMemberFunc(2, Plain(Pool2));
      config.SetPartyMemberFunc(3, Drawn(pool3Mon));
      config.SetPartyMemberFunc(4, Plain(Pool4));
      SlotsFive(base, Lead(Beedrill, false), Lead(Butterfree, false), Plain(Pool2), Drawn(pool3Mon), Plain(Pool4));
    } else {
      pool3Copy := reshuffled;
      var pool3Mon2 := pool3Copy[|pool3Copy| - 1];
      pool3Copy := pool3Copy[..|pool3Copy| - 1];
      config.SetPartyTemplates(PartyTemplate(4, 1));
      config.SetPartyMemberFunc(0, Lead(Beedrill, true));
      config.SetPartyMemberFunc(1, Lead(Butterfree, true));
      config.SetPartyMemberFunc(2, Drawn(pool3Mon));
      config.SetPartyMemberFunc(3, Drawn(pool3Mon2));
      config.SetPartyMemberFunc(4, Plain(Pool4));
      SlotsFive(base, Lead(Beedrill, true), Lead(Butterfree, true), Drawn(pool3Mon), Drawn(pool3Mon2), Plain(Pool4));
    }
  }

  // ---------------------------------------------------------------------------
  // Option 2: showing off Bug types
  // ---------------------------------------------------------------------------

  datatype RewardItem =
    | SuperLure | GreatBall | QuickClaw | MaxLure | UltraBall | GripClaw | RogueBall
    | MasterBall | MegaBracelet | DynamaxBand
    | EvolutionItem | RareEvolutionItem | FormChangeItem | RareFormChangeItem

  /** Which special reward kinds the generator produced an option for (a `null` option is absent). */
  datatype SpecialOffers = SpecialOffers(evolution: bool, rareEvolution: bool, formChange: bool, rareFormChange: bool)

  predicate IsSpecial(x: RewardItem)
  {
    x == EvolutionItem || x == RareEvolutionItem || x == FormChangeItem || x == RareFormChangeItem
  }

  /** The special options, pushed in the order evolution, rare evolution, form change, rare form change. */
  function SpecialOptions(o: SpecialOffers): (r: seq<RewardItem>)
    ensures |r| <= 4 && forall x :: x in r ==> IsSpecial(x)
    ensures (EvolutionItem in r <==> o.evolution) && (RareEvolutionItem in r <==> o.rareEvolution)
    ensures (FormChangeItem in r <==> o.formChange) && (RareFormChangeItem in r <==> o.rareFormChange)
  {
    (if o.evolution then [EvolutionItem] else []) +
    (if o.rareEvolution then [RareEvolutionItem] else []) +
    (if o.formChange then [FormChangeItem] else []) +
    (if o.rareFormChange then [RareFormChangeItem] else [])
  }

  /** The rewards granted and the dialogue key the speaker answers with. */
  datatype ShowOff = ShowOff(rewards: seq<RewardItem>, selectedText: string)

  /**
   * The rewards from six Bug types on: the Master Ball, each access item not
   * yet owned, and one of the special options when there is any.
   * `specialRoll` is `randSeedInt` over the special options, drawn only when
   * there is at least one.
   */
  function TopTierRewards(ownsMegaAccess: bool, ownsGmaxAccess: bool, offers: SpecialOffers, specialRoll: nat): (r: seq<RewardItem>)
    requires |SpecialOptions(offers)| == 0 || specialRoll < |SpecialOptions(offers)|
    ensures 1 <= |r| <= 4 && r[0] == MasterBall
  {
    var specials := SpecialOptions(offers);
    AccessRewards(ownsMegaAccess, ownsGmaxAccess) + (if |specials| > 0 then [specials[specialRoll]] else [])
  }

  /** The pre-option phase of option 2, by the number of Bug types in the party. */
  function ShowOffBugTypes(numBugTypes: nat, ownsMegaAccess: bool, ownsGmaxAccess: bool,
                           offers: SpecialOffers, specialRoll: nat): (r: ShowOff)
    requires |SpecialOptions(offers)| == 0 || specialRoll < |SpecialOptions(offers)|
    ensures 1 <= |r.rewards| <= 4
    ensures MasterBall in r.rewards <==> numBugTypes >= 6
  {
    if numBugTypes < 2 then
      ShowOff([SuperLure, GreatBall], "option.2.selected_0_to_1")
    else if numBugTypes < 4 then
      ShowOff([QuickClaw, MaxLure, UltraBall], "option.2.selected_2_to_3")
    else if numBugTypes < 6 then
      ShowOff([GripClaw, MaxLure, RogueBall], "option.2.selected_4_to_5")
    else
      ShowOff(TopTierRewards(ownsMegaAccess, ownsGmaxAccess, offers, specialRoll), "option.2.selected_6")
  }

  /** The tiers by pairs of Bug types, as a table. */
  const TierRewards: seq<seq<RewardItem>> :=
    [[SuperLure, GreatBall], [QuickClaw, MaxLure, UltraBall], [GripClaw, MaxLure, RogueBall]]
  const TierTexts: seq<string> :=
    ["option.2.selected_0_to_1", "option.2.selected_2_to_3", "option.2.selected_4_to_5", "option.2.selected_6"]

  /** The tier a number of Bug types falls in: one per pair, capped at the fourth. */
  function Tier(numBugTypes: nat): (t: nat)
    ensures t < 4
  {
    if numBugTypes < 6 then numBugTypes / 2 else 3
  }

  /** Below six Bug types the rewards are the tier table's row; the answer is always the tier's text. */
  lemma ShowOffByTier(numBugTypes: nat, ownsMegaAccess: bool, ownsGmaxAccess: bool,
                      offers: SpecialOffers, specialRoll: nat)
    requires |SpecialOptions(offers)| == 0 || specialRoll < |SpecialOptions(offers)|
    ensures var r := ShowOffBugTypes(numBugTypes, ownsMegaAccess, ownsGmaxAccess, offers, specialRoll);
            (Tier(numBugTypes) < 3 ==> r.rewards == TierRewards[Tier(numBugTypes)]) &&
            (Tier(numBugTypes) == 3 ==> r.rewards == TopTierRewards(ownsMegaAccess, ownsGmaxAccess, offers, specialRoll)) &&
            r.selectedText == TierTexts[Tier(numBugTypes)]
  {
  }

  function CountSpecials(s: seq<RewardItem>): nat
  {
    if s == [] then 0 else (if IsSpecial(s[0]) then 1 else 0) + CountSpecials(s[1..])
  }

  lemma {:induction false} CountSpecialsAppend(a: seq<RewardItem>, b: seq<RewardItem>)
    ensures CountSpecials(a + b) == CountSpecials(a) + CountSpecials(b)
  {
    if a != [] {
      assert (a + b)[1..] == a[1..] + b;
      CountSpecialsAppend(a[1..], b);
    } else {
      assert a + b == b;
    }
  }

  /** The part of the top tier that does not depend on the special options. */
  function AccessRewards(ownsMegaAccess: bool, ownsGmaxAccess: bool): seq<RewardItem>
  {
    [MasterBall] + (if ownsMegaAccess then [] else [MegaBracelet]) + (if ownsGmaxAccess then [] else [DynamaxBand])
  }

  lemma AccessRewardsShape(ownsMegaAccess: bool, ownsGmaxAccess: bool)
    ensures var p := AccessRewards(ownsMegaAccess, ownsGmaxAccess);
            1 <= |p| <= 3 && p[0] == MasterBall &&
            (MegaBracelet in p <==> !ownsMegaAccess) && (DynamaxBand in p <==> !ownsGmaxAccess) &&
            CountSpecials(p) == 0 && (forall x :: x in p ==> !IsSpecial(x)) &&
            (forall i, j :: 0 <= i < j < |p| ==> p[i] != p[j])
  {
    var p := AccessRewards(ownsMegaAccess, ownsGmaxAccess);
    if ownsMegaAccess && ownsGmaxAccess {
      assert p == [MasterBall];
    } else if ownsMegaAccess {
      assert p == [MasterBall, DynamaxBand];
    } else if ownsGmaxAccess {
      assert p == [MasterBall, MegaBracelet];
    } else {
      assert p == [MasterBall, MegaBracelet, DynamaxBand];
    }
    NoSpecialsCount(p);
  }

  lemma {:induction false} NoSpecialsCount(s: seq<RewardItem>)
    requires forall x :: x in s ==> !IsSpecial(x)
    ensures CountSpecials(s) == 0
  {
    if s != [] {
      assert s[0] in s;
      assert forall x :: x in s[1..] ==> x in s;
      NoSpecialsCount(s[1..]);
    }
  }

  /**
   * Six or more Bug types: the Master Ball comes first, the Mega Bracelet is
   * there exactly when no mega access is owned, the Dynamax Band exactly when
   * no gigantamax access is owned, and one special option exactly when there
   * is any; so one to four rewards, none repeated.
   */
  lemma TopTierContents(ownsMegaAccess: bool, ownsGmaxAccess: bool, offers: SpecialOffers, specialRoll: nat)
    requires |SpecialOptions(offers)| == 0 || specialRoll < |SpecialOptions(offers)|
    ensures var r := TopTierRewards(ownsMegaAccess, ownsGmaxAccess, offers, specialRoll);
            1 <= |r| <= 4 && r[0] == MasterBall &&
            (MegaBracelet in r <==> !ownsMegaAccess) &&
            (DynamaxBand in r <==> !ownsGmaxAccess) &&
            CountSpecials(r) == (if |SpecialOptions(offers)| > 0 then 1 else 0) &&
            (forall x :: x in r && IsSpecial(x) ==> x in SpecialOptions(offers)) &&
            (forall i, j :: 0 <= i < j < |r| ==> r[i] != r[j])
  {
    var specials := SpecialOptions(offers);
    var p := AccessRewards(ownsMegaAccess, ownsGmaxAccess);
    var x: seq<RewardItem> := if |specials| > 0 then [specials[specialRoll]] else [];
    var r := TopTierRewards(ownsMegaAccess, ownsGmaxAccess, offers, specialRoll);
    assert r == p + x;
    AccessRewardsShape(ownsMegaAccess, ownsGmaxAccess);
    SpecialPick(specials, specialRoll);
    CountSpecialsAppend(p, x);
    AppendSpecial(p, x);
  }

  /** The pick from the special options: none, or one special option. */
  lemma SpecialPick(specials: seq<RewardItem>, specialRoll: nat)
    requires forall y :: y in specials ==> IsSpecial(y)
    requires |specials| == 0 || specialRoll < |specials|
    ensures var x: seq<RewardItem> := if |specials| > 0 then [specials[specialRoll]] else [];
            |x| == (if |specials| > 0 then 1 else 0) && CountSpecials(x) == |x| &&
            forall y :: y in x ==> IsSpecial(y) && y in specials
  {
    if |specials| > 0 {
      assert specials[specialRoll] in specials;
    }
  }

  /** Appending at most one special item to a list of distinct non-special items keeps them distinct. */
  lemma AppendSpecial(p: seq<RewardItem>, x: seq<RewardItem>)
    requires forall y :: y in p ==> !IsSpecial(y)
    requires |x| <= 1 && forall y :: y in x ==> IsSpecial(y)
    requires forall i, j :: 0 <= i < j < |p| ==> p[i] != p[j]
    ensures forall i, j :: 0 <= i < j < |p + x| ==> (p + x)[i] != (p + x)[j]
    ensures forall y :: y in p + x && !IsSpecial(y) ==> y in p
    ensures forall y :: y in p + x && IsSpecial(y) ==> y in x
  {
    var r := p + x;
    forall i, j | 0 <= i < j < |r| ensures r[i] != r[j] {
      if j >= |p| {
        assert r[j] == x[0] && r[i] == p[i];
        assert p[i] in p && x[0] in x;
      }
    }
  }

  /** How good a ball reward is; other rewards rank 0. */
  function BallRank(x: RewardItem): (k: nat)
    ensures k <= 4
  {
    match x
    case GreatBall => 1
    case UltraBall => 2
    case RogueBall => 3
    case MasterBall => 4
    case _ => 0
  }

  /** The best ball among the rewards. */
  function BestBall(s: seq<RewardItem>): (k: nat)
    ensures k <= 4
    ensures forall x :: x in s ==> BallRank(x) <= k
  {
    if s == [] then 0 else
    var rest := BestBall(s[1..]);
    assert forall x :: x in s ==> x == s[0] || x in s[1..];
    if BallRank(s[0]) > rest then BallRank(s[0]) else rest
  }

  /** The best ball is the Great, Ultra, Rogue or Master Ball by tier. */
  lemma BestBallByTier(numBugTypes: nat, ownsMegaAccess: bool, ownsGmaxAccess: bool,
                       offers: SpecialOffers, specialRoll: nat)
    requires |SpecialOptions(offers)| == 0 || specialRoll < |SpecialOptions(offers)|
    ensures BestBall(ShowOffBugTypes(numBugTypes, ownsMegaAccess, ownsGmaxAccess, offers, specialRoll).rewards)
            == Tier(numBugTypes) + 1
  {
    var r := ShowOffBugTypes(numBugTypes, ownsMegaAccess, ownsGmaxAccess, offers, specialRoll).rewards;
    if numBugTypes < 2 {
      assert BestBall(r[1..]) == 1;
    } else if numBugTypes < 4 {
      assert BestBall(r[2..]) == 2;
      assert r[1..][1..] == r[2..];
    } else if numBugTypes < 6 {
      assert BestBall(r[2..]) == 3;
      assert r[1..][1..] == r[2..];
    } else {
      TopTierContents(ownsMegaAccess, ownsGmaxAccess, offers, specialRoll);
      assert r[0] in r;
    }
  }

  /** Showing off more Bug types never earns a worse ball. */
  lemma BallImprovesWithBugTypes(n1: nat, n2: nat, ownsMegaAccess: bool, ownsGmaxAccess: bool,
                                 offers: SpecialOffers, specialRoll: nat)
    requires |SpecialOptions(offers)| == 0 || specialRoll < |SpecialOptions(offers)|
    requires n1 <= n2
    ensures BestBall(ShowOffBugTypes(n1, ownsMegaAccess, ownsGmaxAccess, offers, specialRoll).rewards)
            <= BestBall(ShowOffBugTypes(n2, ownsMegaAccess, ownsGmaxAccess, offers, specialRoll).rewards)
  {
    BestBallByTier(n1, ownsMegaAccess, ownsGmaxAccess, offers, specialRoll);
    BestBallByTier(n2, ownsMegaAccess, ownsGmaxAccess, offers, specialRoll);
  }

  // ---------------------------------------------------------------------------
  // Option 1: the tutor moves and the hand-over after the battle
  // ---------------------------------------------------------------------------

  /** The four tutor options, one roll below 5 per pool. */
  function TutorOptions(physicalRoll: nat, specialRoll: nat, statusRoll: nat, miscRoll: nat): (r: seq<Move>)
    requires physicalRoll < |PhysicalTutorMoves| && specialRoll < |SpecialTutorMoves|
    requires statusRoll < |StatusTutorMoves| && miscRoll < |MiscTutorMoves|
    ensures |r| == 4
    ensures r[0] in PhysicalTutorMoves && r[1] in SpecialTutorMoves
    ensures r[2] in StatusTutorMoves && r[3] in MiscTutorMoves
  {
    [PhysicalTutorMoves[physicalRoll], SpecialTutorMoves[specialRoll],
     StatusTutorMoves[statusRoll], MiscTutorMoves[miscRoll]]
  }

  /** The four pools share no move, so the four options are four different moves. */
  lemma TutorOptionsDistinct(physicalRoll: nat, specialRoll: nat, statusRoll: nat, miscRoll: nat)
    requires physicalRoll < |PhysicalTutorMoves| && specialRoll < |SpecialTutorMoves|
    requires statusRoll < |StatusTutorMoves| && miscRoll < |MiscTutorMoves|
    ensures var r := TutorOptions(physicalRoll, specialRoll, statusRoll, miscRoll);
            forall i, j :: 0 <= i < j < 4 ==> r[i] != r[j]
  {
    var pools := [PhysicalTutorMoves, SpecialTutorMoves, StatusTutorMoves, MiscTutorMoves];
    assert forall p, q, a, b :: 0 <= p < q < 4 && 0 <= a < 5 && 0 <= b < 5 ==> pools[p][a] != pools[q][b];
  }

  /** Every choice of one move per pool can be offered. */
  lemma EveryTutorChoiceOffered(a: Move, b: Move, c: Move, d: Move)
    requires a in PhysicalTutorMoves && b in SpecialTutorMoves
    requires c in StatusTutorMoves && d in MiscTutorMoves
    ensures exists p: nat, s: nat, t: nat, m: nat ::
              p < 5 && s < 5 && t < 5 && m < 5 && TutorOptions(p, s, t, m) == [a, b, c, d]
  {
    var p: nat :| p < 5 && PhysicalTutorMoves[p] == a;
    var s: nat :| s < 5 && SpecialTutorMoves[s] == b;
    var t: nat :| t < 5 && StatusTutorMoves[t] == c;
    var m: nat :| m < 5 && MiscTutorMoves[m] == d;
    assert TutorOptions(p, s, t, m) == [a, b, c, d];
  }

  /** What `selectOptionThenPokemon` resolves to when the player does not back out. */
  datatype OptionThenPokemon = OptionThenPokemon(selectedOptionIndex: nat, selectedPokemonIndex: nat)

  datatype Phase = LearnMovePhase(pokemonIndex: nat, move: Move) | OtherPhase(id: nat)

  /**
   * `doBugTypeMoveTutor`: a learn-move phase goes to the front of the phase
   * queue when a result came back and its option index is one of the moves.
   */
  function AfterMoveTutor(queue: seq<Phase>, moveOptions: seq<Move>, result: Option<OptionThenPokemon>): (q: seq<Phase>)
    ensures var teaches := result.Some? && result.value.selectedOptionIndex < |moveOptions|;
            |q| == |queue| + (if teaches then 1 else 0) && q[|q| - |queue|..] == queue &&
            (teaches ==> q[0] == LearnMovePhase(result.value.selectedPokemonIndex,
                                                moveOptions[result.value.selectedOptionIndex]))
  {
    if result.Some? && result.value.selectedOptionIndex < |moveOptions| then
      [LearnMovePhase(result.value.selectedPokemonIndex, moveOptions[result.value.selectedOptionIndex])] + queue
    else
      queue
  }

  /** Any move the tutor teaches is one of the four offered, from the pool of its position. */
  lemma TutorTeachesOfferedMove(queue: seq<Phase>, physicalRoll: nat, specialRoll: nat, statusRoll: nat,
                                miscRoll: nat, result: Option<OptionThenPokemon>)
    requires physicalRoll < |PhysicalTutorMoves| && specialRoll < |SpecialTutorMoves|
    requires statusRoll < |StatusTutorMoves| && miscRoll < |MiscTutorMoves|
    ensures var options := TutorOptions(physicalRoll, specialRoll, statusRoll, miscRoll);
            var q := AfterMoveTutor(queue, options, result);
            (q == queue || (|q| == |queue| + 1 && q[0].LearnMovePhase? && q[1..] == queue)) &&
            (|q| > |queue| ==>
               q[0].move in options &&
               (q[0].move in PhysicalTutorMoves || q[0].move in SpecialTutorMoves ||
                q[0].move in StatusTutorMoves || q[0].move in MiscTutorMoves))
  {
    var options := TutorOptions(physicalRoll, specialRoll, statusRoll, miscRoll);
    var q := AfterMoveTutor(queue, options, result);
    if |q| > |queue| {
      var i := result.value.selectedOptionIndex;
      assert q[0].move == options[i];
      assert i == 0 || i == 1 || i == 2 || i == 3;
    }
  }

  // ---------------------------------------------------------------------------
  // Option 3: trading a bug item
  // ---------------------------------------------------------------------------

  /** The held-item modifiers the trade option distinguishes. */
  datatype HeldModifier =
    | BypassSpeedChance
    | ContactHeldItemTransferChance
    | AttackTypeBooster(moveType: HeldItems.PokemonType)
    | OtherHeldModifier

  datatype HeldItem = HeldItem(modifier: HeldModifier, isTransferable: bool)

  /** A Quick Claw, a Grip Claw or a Silver Powder (the Bug attack booster). */
  predicate IsBugItem(m: HeldModifier)
  {
    m.BypassSpeedChance? || m.ContactHeldItemTransferChance? ||
    (m.AttackTypeBooster? && m.moveType == HeldItems.Bug)
  }

  /** `r` is `s` with some elements left out and the rest kept in order. */
  predicate Subsequence<T(==)>(r: seq<T>, s: seq<T>)
  {
    if r == [] then true
    else if s == [] then false
    else (r[0] == s[0] && Subsequence(r[1..], s[1..])) || Subsequence(r, s[1..])
  }

  /** The items `onPokemonSelected` offers: bug items that can be transferred, in held order. */
  function ValidItems(items: seq<HeldItem>): (r: seq<HeldItem>)
    ensures |r| <= |items|
    ensures forall x :: x in r ==> x in items && IsBugItem(x.modifier) && x.isTransferable
    ensures forall x :: x in items && IsBugItem(x.modifier) && x.isTransferable ==> x in r
    ensures forall x :: multiset(r)[x] == if IsBugItem(x.modifier) && x.isTransferable then multiset(items)[x] else 0
    ensures Subsequence(r, items)
  {
    if items == [] then []
    else
      assert items == [items[0]] + items[1..];
      var rest := ValidItems(items[1..]);
      if IsBugItem(items[0].modifier) && items[0].isTransferable then [items[0]] + rest else rest
  }

  /** `selectableFilter` lets a Pokemon through when it holds some bug item. */
  predicate Selectable(items: seq<HeldItem>)
    ensures Selectable(items) ==> items != []
    ensures forall i :: 0 <= i < |items| && IsBugItem(items[i].modifier) ==> Selectable(items)
  {
    exists x :: x in items && IsBugItem(x.modifier)
  }

  /**
   * A Pokemon with an item to offer is always selectable, and a selectable
   * Pokemon whose items are all transferable always has one to offer.
   */
  lemma ValidItemsVersusSelectable(items: seq<HeldItem>)
    ensures |ValidItems(items)| > 0 ==> Selectable(items)
    ensures Selectable(items) && (forall x :: x in items ==> x.isTransferable) ==> |ValidItems(items)| > 0
  {
    if |ValidItems(items)| > 0 {
      assert ValidItems(items)[0] in ValidItems(items);
    }
    if Selectable(items) && (forall x :: x in items ==> x.isTransferable) {
      var x :| x in items && IsBugItem(x.modifier);
      assert x in ValidItems(items);
    }
  }

  /** The filter does not check transferability: a Pokemon holding only an untransferable Quick Claw is selectable and is offered nothing. */
  lemma SelectableWithNothingToOffer()
    ensures var items := [HeldItem(BypassSpeedChance, false)];
            Selectable(items) && ValidItems(items) == []
  {
    var items := [HeldItem(BypassSpeedChance, false)];
    assert items[0] in items;
  }
}
