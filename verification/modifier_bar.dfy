/**
 * `ItemBar` (src/modifier/modifier-bar.ts): the strip of item icons above a
 * battler. `updateItems` sorts the trainer's items and the held items of up
 * to two Pokemon, numbers one icon per item, hides icons from number 24 on,
 * lays them out on a grid of 12 per row, reverses the container's child
 * order, and caches the item ids. Its comparators are the ones of
 * `ItemUtility`, which order ids by value, so sorting is `SortIds`.
 */
module ModifierBar {
  import opened Wrappers
  import opened ItemUtility

  /** Icons numbered this or higher start hidden. */
  const IconOverflowIndex: nat := 24

  /** One icon in the container: the item it shows, its tooltip name, visibility and position. */
  datatype Icon = Icon(item: int, name: string, visible: bool, x: real, y: int)

  /** `Math.ceil` on an exact value. */
  function Ceil(x: real): (r: int)
    ensures x <= r as real < x + 1.0
  {
    -((-x).Floor)
  }

  /**
   * Icons per row for a bar holding `itemCount` items: at most 24 count and
   * they fill at most two rows, so the extra term never applies and a row
   * always holds 12.
   */
  function RowIcons(itemCount: int): (r: int)
    ensures r == 12
  {
    var shown := if itemCount < IconOverflowIndex then itemCount else IconOverflowIndex;
    var rows := Ceil(shown as real / 12.0);
    12 + 6 * (if rows - 2 > 0 then rows - 2 else 0)
  }

  /** Horizontal position of the child at `index`, mirrored on the enemy bar. */
  function IconX(index: nat, itemCount: int, player: bool): (x: real)
    ensures x == (if player then 1.0 else -1.0) * ((index % 12) * 26) as real
  {
    var rowIcons := RowIcons(itemCount);
    var x := ((index % rowIcons) * 26) as real / (rowIcons as real / 12.0);
    if player then x else -x
  }

  /** Vertical position of the child at `index`: 20 per full row before it. */
  function IconY(index: nat, itemCount: int): (y: int)
    ensures y == (index / 12) * 20
  {
    var rowIcons := RowIcons(itemCount);
    (index / rowIcons) * 20
  }

  /**
   * `addIcon` checks the 1-based icon number `i >= 24`, which hides the 0-based
   * child 23 as well; the overflow handler reveals children from 24 on. So the
   * first hidden child is 23 as written, which `ItemBar` follows, and 24 once
   * corrected, which `HoverRevealsEveryIcon` assumes.
   */
  const AsWrittenFirstHidden: nat := IconOverflowIndex - 1
  const FirstHidden: nat := IconOverflowIndex

  /**
   * `addIcon` for the icon numbered `index + 1`, added when the container
   * already holds `index` children, so that `getIndex` gives `index`.
   */
  function MakeIcon(item: int, name: string, index: nat, itemCount: int, player: bool, firstHidden: nat): (icon: Icon)
    ensures icon.visible <==> index < firstHidden
    ensures icon.item == item && icon.name == name
  {
    Icon(item, name, !(index >= firstHidden), IconX(index, itemCount, player), IconY(index, itemCount))
  }

  /** The first `n` icons `updateItems` adds for `items` (with tooltip `names`). */
  function IconsUpTo(items: seq<int>, names: seq<string>, n: nat, itemCount: int, player: bool, firstHidden: nat): (r: seq<Icon>)
    requires n <= |items| == |names|
    ensures |r| == n
    ensures forall k :: 0 <= k < n ==> r[k] == MakeIcon(items[k], names[k], k, itemCount, player, firstHidden)
  {
    seq(n, k requires 0 <= k < n => MakeIcon(items[k], names[k], k, itemCount, player, firstHidden))
  }

  /** The tooltip names of `items`, looked up in a registry (an unregistered item never reaches this). */
  function NamesOf(items: seq<int>, registry: map<int, string>): (r: seq<string>)
    ensures |r| == |items|
    ensures forall k :: 0 <= k < |items| && items[k] in registry ==> r[k] == registry[items[k]]
  {
    seq(|items|, k requires 0 <= k < |items| => if items[k] in registry then registry[items[k]] else "")
  }

  /** Every item has a registry entry. */
  predicate Registered(items: seq<int>, registry: map<int, string>)
  {
    forall k :: 0 <= k < |items| ==> items[k] in registry
  }

  /** `s` back to front. */
  function Reverse<T>(s: seq<T>): (r: seq<T>)
    ensures |r| == |s|
    ensures forall k :: 0 <= k < |s| ==> r[k] == s[|s| - 1 - k]
  {
    if |s| == 0 then [] else [s[|s| - 1]] + Reverse(s[..|s| - 1])
  }

  /** The held items a possibly absent Pokemon contributes: none when absent. */
  function HeldOrEmpty(pokemon: Option<seq<int>>): seq<int> {
    if pokemon.Some? then pokemon.value else []
  }

  /** How many icons are visible. */
  function VisibleCount(icons: seq<Icon>): (r: nat)
    ensures r <= |icons|
  {
    if |icons| == 0 then 0 else VisibleCount(icons[..|icons| - 1]) + (if icons[|icons| - 1].visible then 1 else 0)
  }

  /** Of `n` freshly added icons, only those before the first hidden one are visible. */
  lemma {:induction false} VisibleUpTo(items: seq<int>, names: seq<string>, n: nat, itemCount: int, player: bool, firstHidden: nat)
    requires n <= |items| == |names|
    ensures VisibleCount(IconsUpTo(items, names, n, itemCount, player, firstHidden)) == if n < firstHidden then n else firstHidden
  {
    if n > 0 {
      var icons := IconsUpTo(items, names, n, itemCount, player, firstHidden);
      assert icons[..n - 1] == IconsUpTo(items, names, n - 1, itemCount, player, firstHidden);
      VisibleUpTo(items, names, n - 1, itemCount, player, firstHidden);
    }
  }

  /**
   * `updateItemOverflowVisibility`: reading the children back to front,
   * every child from position 24 on is shown or hidden.
   */
  function OverflowVisibility(children: seq<Icon>, ignoreLimit: bool): (r: seq<Icon>)
    ensures |r| == |children|
    ensures forall k :: 0 <= k < |children| ==>
              r[k] == if |children| - 1 - k >= IconOverflowIndex then children[k].(visible := ignoreLimit) else children[k]
  {
    seq(|children|, k requires 0 <= k < |children| =>
      if |children| - 1 - k >= IconOverflowIndex then children[k].(visible := ignoreLimit) else children[k])
  }

  class ItemBar {
    const player: bool
    var itemCache: seq<int>
    var totalVisibleLength: nat
    /** The container's children, in container order. */
    var icons: seq<Icon>

    constructor (enemy: bool)
      ensures player == !enemy
      ensures itemCache == [] && totalVisibleLength == 0 && icons == []
    {
      player := !enemy;
      itemCache := [];
      totalVisibleLength := 0;
      icons := [];
    }

    /**
     * `addIcon`: hides icons numbered 24 or more, so the new child is hidden
     * from index 23 on, and places it by its index.
     */
    method AddIcon(item: int, i: nat, name: string)
      requires i == |icons| + 1
      modifies this
      ensures icons == old(icons) + [MakeIcon(item, name, |old(icons)|, totalVisibleLength, player, AsWrittenFirstHidden)]
      ensures itemCache == old(itemCache) && totalVisibleLength == old(totalVisibleLength)
    {
      var visible := true;
      if i >= IconOverflowIndex {
        visible := false;
      }
      var index := |icons|;
      icons := icons + [Icon(item, name, visible, IconX(index, totalVisibleLength, player), IconY(index, totalVisibleLength))];
    }

    /**
     * `updateItems`: every item must be registered, since its icon and
     * tooltip are read from the registry.
     */
    method UpdateItems(trainerItems: seq<int>, trainerItemNames: map<int, string>,
                       pokemonA: Option<seq<int>>, pokemonB: Option<seq<int>>, heldItemNames: map<int, string>)
      requires Registered(trainerItems, trainerItemNames)
      requires Registered(HeldOrEmpty(pokemonA), heldItemNames) && Registered(HeldOrEmpty(pokemonB), heldItemNames)
      modifies this
      ensures itemCache == SortIds(trainerItems) + SortIds(HeldOrEmpty(pokemonA)) + SortIds(HeldOrEmpty(pokemonB))
      ensures totalVisibleLength == |trainerItems| + |HeldOrEmpty(pokemonA)| + |HeldOrEmpty(pokemonB)|
      ensures |itemCache| == totalVisibleLength
      ensures icons == Reverse(IconsUpTo(itemCache, CacheNames(SortIds(trainerItems), trainerItemNames, SortIds(HeldOrEmpty(pokemonA)),
                                                               SortIds(HeldOrEmpty(pokemonB)), heldItemNames),
                                         totalVisibleLength, totalVisibleLength, player, AsWrittenFirstHidden))
    {
      icons := [];

      var sortedTrainerItems := SortIds(trainerItems);
      var heldItemsA := if pokemonA.Some? then SortIds(pokemonA.value) else [];
      var heldItemsB := if pokemonB.Some? then SortIds(pokemonB.value) else [];
      SortedInRegistry(trainerItems, trainerItemNames);
      SortedInRegistry(HeldOrEmpty(pokemonA), heldItemNames);
      SortedInRegistry(HeldOrEmpty(pokemonB), heldItemNames);
      assert heldItemsA == SortIds(HeldOrEmpty(pokemonA)) && heldItemsB == SortIds(HeldOrEmpty(pokemonB));

      totalVisibleLength := |sortedTrainerItems| + |heldItemsA| + |heldItemsB|;
      ghost var all := sortedTrainerItems + heldItemsA + heldItemsB;
      ghost var names := CacheNames(sortedTrainerItems, trainerItemNames, heldItemsA, heldItemsB, heldItemNames);
      AddAllIcons(sortedTrainerItems, trainerItemNames, pokemonA.Some?, heldItemsA, pokemonB.Some?, heldItemsB, heldItemNames);
      ghost var added := icons;
      assert added == IconsUpTo(all, names, totalVisibleLength, totalVisibleLength, player, AsWrittenFirstHidden);
      SendAllToBack();
      assert icons == Reverse(added);

      itemCache := sortedTrainerItems + heldItemsA + heldItemsB;
      assert itemCache == all && |itemCache| == totalVisibleLength;
      assert names == CacheNames(SortIds(trainerItems), trainerItemNames, SortIds(HeldOrEmpty(pokemonA)),
                                 SortIds(HeldOrEmpty(pokemonB)), heldItemNames);
    }

    /**
     * The three `forEach` loops of `updateItems`; the held items of an absent
     * Pokemon are empty.
     */
    method AddAllIcons(trainerItems: seq<int>, trainerItemNames: map<int, string>, hasA: bool, heldItemsA: seq<int>,
                       hasB: bool, heldItemsB: seq<int>, heldItemNames: map<int, string>)
      requires Registered(trainerItems, trainerItemNames)
      requires Registered(heldItemsA, heldItemNames) && Registered(heldItemsB, heldItemNames)
      requires (hasA || heldItemsA == []) && (hasB || heldItemsB == [])
      requires icons == [] && totalVisibleLength == |trainerItems| + |heldItemsA| + |heldItemsB|
      modifies this
      ensures itemCache == old(itemCache) && totalVisibleLength == old(totalVisibleLength)
      ensures icons == IconsUpTo(trainerItems + heldItemsA + heldItemsB,
                                 CacheNames(trainerItems, trainerItemNames, heldItemsA, heldItemsB, heldItemNames),
                                 totalVisibleLength, totalVisibleLength, player, AsWrittenFirstHidden)
    {
      ghost var all := trainerItems + heldItemsA + heldItemsB;
      ghost var allNames := CacheNames(trainerItems, trainerItemNames, heldItemsA, heldItemsB, heldItemNames);
      CacheSlices(trainerItems, trainerItemNames, heldItemsA, heldItemsB, heldItemNames);
      ghost var nB := |trainerItems| + |heldItemsA|;
      var iconCount := 0;
      iconCount := AddIcons(iconCount, trainerItems, trainerItemNames, all, allNames);
      if hasA {
        iconCount := AddIcons(iconCount, heldItemsA, heldItemNames, all, allNames);
      }
      assert iconCount == nB;
      if hasB {
        iconCount := AddIcons(iconCount, heldItemsB, heldItemNames, all, allNames);
      }
    }

    /**
     * One `forEach` of `updateItems`: an icon per item, numbered on from
     * `iconCount`; `all` and `allNames` are every item and tooltip of the update.
     */
    method AddIcons(iconCount: nat, items: seq<int>, registry: map<int, string>, ghost all: seq<int>, ghost allNames: seq<string>)
        returns (newCount: nat)
      requires Registered(items, registry)
      requires iconCount == |icons| && iconCount + |items| <= |all| == |allNames| == totalVisibleLength
      requires all[iconCount..iconCount + |items|] == items
      requires allNames[iconCount..iconCount + |items|] == NamesOf(items, registry)
      requires icons == IconsUpTo(all, allNames, iconCount, totalVisibleLength, player, AsWrittenFirstHidden)
      modifies this
      ensures newCount == iconCount + |items|
      ensures icons == IconsUpTo(all, allNames, newCount, totalVisibleLength, player, AsWrittenFirstHidden)
      ensures itemCache == old(itemCache) && totalVisibleLength == old(totalVisibleLength)
    {
      newCount := iconCount;
      for i := 0 to |items|
        invariant newCount == iconCount + i == |icons|
        invariant itemCache == old(itemCache) && totalVisibleLength == old(totalVisibleLength)
        invariant icons == IconsUpTo(all, allNames, newCount, totalVisibleLength, player, AsWrittenFirstHidden)
      {
        var item := items[i];
        assert all[newCount] == all[iconCount..iconCount + |items|][i] == item;
        assert allNames[newCount] == allNames[iconCount..iconCount + |items|][i] == registry[item];
        newCount := newCount + 1;
        AddIcon(item, newCount, registry[item]);
      }
    }

    /** `sendToBack` on each child in turn, over a snapshot of the children: the order is reversed. */
    method SendAllToBack()
      modifies this
      ensures icons == Reverse(old(icons))
      ensures itemCache == old(itemCache) && totalVisibleLength == old(totalVisibleLength)
    {
      var children := icons;
      for j := 0 to |children|
        invariant itemCache == old(itemCache) && totalVisibleLength == old(totalVisibleLength)
        invariant icons == Reverse(children[..j]) + children[j..]
      {
        assert icons[j] == children[j];
        icons := [icons[j]] + icons[..j] + icons[j + 1..];
        assert children[..j + 1][..j] == children[..j];
      }
      assert children[..|children|] == children;
    }

    /**
     * The `pointerover` (`true`) and `pointerout` (`false`) handlers of an
     * icon: with more than 24 items cached, the overflow is shown or hidden.
     */
    method Hover(pointerOver: bool)
      modifies this
      ensures itemCache == old(itemCache) && totalVisibleLength == old(totalVisibleLength)
      ensures icons == if |itemCache| > IconOverflowIndex then OverflowVisibility(old(icons), pointerOver) else old(icons)
    {
      if |itemCache| > IconOverflowIndex {
        UpdateItemOverflowVisibility(pointerOver);
      }
    }

    /** `updateItemOverflowVisibility`, run when the pointer enters (`true`) or leaves (`false`) an icon. */
    method UpdateItemOverflowVisibility(ignoreLimit: bool)
      modifies this
      ensures icons == OverflowVisibility(old(icons), ignoreLimit)
      ensures itemCache == old(itemCache) && totalVisibleLength == old(totalVisibleLength)
    {
      icons := OverflowVisibility(icons, ignoreLimit);
    }
  }

  /**
   * After `updateItems` (children in reverse order of addition), hovering over
   * an icon shows every icon, and moving off restores the bar as it was.
   */
  lemma HoverRevealsEveryIcon(items: seq<int>, names: seq<string>, n: nat, itemCount: int, player: bool)
    requires n <= |items| == |names|
    ensures var children := Reverse(IconsUpTo(items, names, n, itemCount, player, FirstHidden));
            && (forall k :: 0 <= k < n ==> OverflowVisibility(children, true)[k].visible)
            && OverflowVisibility(OverflowVisibility(children, true), false) == children
  {
    var children := Reverse(IconsUpTo(items, names, n, itemCount, player, FirstHidden));
    var shown := OverflowVisibility(children, true);
    forall k | 0 <= k < n
      ensures shown[k].visible
      ensures OverflowVisibility(shown, false)[k] == children[k]
    {
      assert children[k] == MakeIcon(items[n - 1 - k], names[n - 1 - k], n - 1 - k, itemCount, player, FirstHidden);
    }
  }

  /**
   * As written, the icon numbered 24 (the child added 24th, at position
   * `n - 24` once reversed) stays hidden even while hovering, though all
   * others are shown.
   */
  lemma HoverLeavesIcon24Hidden(items: seq<int>, names: seq<string>, n: nat, itemCount: int, player: bool)
    requires IconOverflowIndex < n <= |items| == |names|
    ensures var children := Reverse(IconsUpTo(items, names, n, itemCount, player, AsWrittenFirstHidden));
            && !OverflowVisibility(children, true)[n - IconOverflowIndex].visible
            && (forall k :: 0 <= k < n && k != n - IconOverflowIndex ==> OverflowVisibility(children, true)[k].visible)
  {
    var children := Reverse(IconsUpTo(items, names, n, itemCount, player, AsWrittenFirstHidden));
    var shown := OverflowVisibility(children, true);
    forall k | 0 <= k < n
      ensures shown[k].visible <==> k != n - IconOverflowIndex
    {
      assert children[k] == MakeIcon(items[n - 1 - k], names[n - 1 - k], n - 1 - k, itemCount, player, AsWrittenFirstHidden);
    }
  }

  /** The tooltip names in `itemCache` order. */
  function CacheNames(trainerItems: seq<int>, trainerItemNames: map<int, string>,
                      heldItemsA: seq<int>, heldItemsB: seq<int>, heldItemNames: map<int, string>): (r: seq<string>)
    ensures |r| == |trainerItems| + |heldItemsA| + |heldItemsB|
  {
    NamesOf(trainerItems, trainerItemNames) + NamesOf(heldItemsA, heldItemNames) + NamesOf(heldItemsB, heldItemNames)
  }

  /** The cache and its tooltips split back into the three parts they were built from. */
  lemma CacheSlices(trainerItems: seq<int>, trainerItemNames: map<int, string>,
                    heldItemsA: seq<int>, heldItemsB: seq<int>, heldItemNames: map<int, string>)
    ensures var all, names := trainerItems + heldItemsA + heldItemsB,
                              CacheNames(trainerItems, trainerItemNames, heldItemsA, heldItemsB, heldItemNames);
            var nA, nB := |trainerItems|, |trainerItems| + |heldItemsA|;
            && all[0..nA] == trainerItems && names[0..nA] == NamesOf(trainerItems, trainerItemNames)
            && all[nA..nB] == heldItemsA && names[nA..nB] == NamesOf(heldItemsA, heldItemNames)
            && all[nB..nB + |heldItemsB|] == heldItemsB && names[nB..nB + |heldItemsB|] == NamesOf(heldItemsB, heldItemNames)
  {
    ThreeParts(trainerItems, heldItemsA, heldItemsB);
    ThreeParts(NamesOf(trainerItems, trainerItemNames), NamesOf(heldItemsA, heldItemNames), NamesOf(heldItemsB, heldItemNames));
  }

  /** The three parts of a concatenation are its slices. */
  lemma ThreeParts<T>(a: seq<T>, b: seq<T>, c: seq<T>)
    ensures (a + b + c)[..|a|] == a
    ensures (a + b + c)[|a|..|a| + |b|] == b
    ensures (a + b + c)[|a| + |b|..|a| + |b| + |c|] == c
  {
  }

  /** Sorting keeps every item registered. */
  lemma SortedInRegistry(items: seq<int>, registry: map<int, string>)
    requires Registered(items, registry)
    ensures |SortIds(items)| == |items|
    ensures Registered(SortIds(items), registry)
  {
    var s := SortIds(items);
    assert |s| == |multiset(s)| == |multiset(items)| == |items|;
    forall k | 0 <= k < |s|
      ensures s[k] in registry
    {
      assert s[k] in multiset(items);
    }
  }
}
