# Held items, charging moves and encounter tables of PokeRogue, in Dafny

This project models, in Dafny, a set of battle and item rules from the
PokeRogue game and proves properties about them:

- **The charging turn of a two-turn move** (`MoveChargePhase`). On start, the user is tagged CHARGING. When the phase ends, the attack either resolves at once or is deferred:
  - instant charge: the user's pending move-end phase is dropped and a move phase goes to the front of the phase queue;
  - otherwise: the move is appended to the user's move queue.

  Either way, exactly one move-history record with result OTHER is written.
- **Held-item effects.** Each effect rewrites a boxed number by its stack count:
  - the attack-type boosters, with their 18-type map and registry;
  - the accuracy booster;
  - the friendship booster;
  - the nature-weight booster;
  - berries: the type-to-id map, the stack cap, the icon name, and consumption unless preserved.
- **Item identifiers and ordering:**
  - the `HeldItemId` table and its reverse map `HeldItemNames`;
  - the id-then-name comparators;
  - the item bar, which sorts, numbers, hides, lays out and reveals item icons.
- **Dialogue helpers:**
  - the `@c{...}` character-variant extractor;
  - the copier that writes a trainer type's encounter, victory and defeat messages into its trainer configuration.
- **The text mock used by the tests:** its word-wrap routine and its child-list operations.
- **The Bug-Type Superfan mystery encounter:**
  - the party layout chosen by wave breakpoints, and the two pool-3 draws;
  - the rewards for showing off Bug types;
  - the four tutor moves and the learn-move hand-over;
  - the held-item filters of the trade option.

There is one module per source file: `MoveChargePhase`, `HeldItems`,
`AccuracyBoosterItem`, `FriendshipBoosterItem`, `NatureWeightBoosterItem`,
`BerryItem`, `HeldItemIds`, `ItemUtility`, `ModifierBar`, `Dialogue`,
`MockTextModel` and `BugTypeSuperfan`. `Common` holds the number and boolean
holders, the stack lookup and `Math.floor`; `Wrappers` holds `Option`.

Where the source mutates objects, the model uses classes with the same
fields: the user Pokemon, the phase manager, the held items, the item bar,
the trainer configurations and the text mock. Their methods are proved
against pure functions, and the lemmas are stated about those functions.

Two id spaces are kept apart, because the two source files come from
different versions of the code:

- `HeldItemType` (src/modifier/held-items.ts) has SITRUS_BERRY = 1 and SILK_SCARF = 101.
- `HeldItemId` (src/enums/held-item-id.ts) has SITRUS_BERRY = 0x0101 and SILK_SCARF = 0x0301.

## Model

| member | source | states |
|---|---|---|
| Common.GetStack | src/items/held-items/accuracy-booster.ts:42 | an item not held has stack 0, a held one its recorded count |
| Common.FloorMul | src/items/held-items/friendship-booster.ts:19 | `Math.floor(v*m)` is the integer at most 1 below the exact product; multiplier 1 keeps whole values; a multiplier of at least 1 never lowers a non-negative whole value |
| Common.FloorMulWhole | src/items/held-items/friendship-booster.ts:19 | a product that is already whole is unchanged by the floor |
| Common.FloorMulMonotone | src/modifier/held-items.ts:180 | for a non-negative value the floored product grows with the multiplier |
| AccuracyBoosterItem.BoostedAccuracy | src/items/held-items/accuracy-booster.ts:43 | stack 0 leaves the accuracy unchanged; a non-negative amount never lowers it; a positive amount with a positive stack raises it |
| AccuracyBoosterItem.BoostedAccuracyAdds | src/items/held-items/accuracy-booster.ts:43 | applying s1 stacks then s2 stacks equals applying s1 + s2 stacks at once |
| AccuracyBoosterItem.AccuracyBoosterHeldItem.constructor | src/items/held-items/accuracy-booster.ts:13-21 | type, stack cap and accuracy amount are stored; the effect list is exactly `[ACCURACY_BOOSTER]` |
| AccuracyBoosterItem.AccuracyBoosterHeldItem.Apply | src/items/held-items/accuracy-booster.ts:39-46 | returns true; the holder becomes old value + amount × the stack of this item's own type |
| FriendshipBoosterItem.BoostedFriendship | src/items/held-items/friendship-booster.ts:19 | result is the whole number at most 1 below f·(1 + 0.5·s); stack 0 keeps a whole f; never lowers a non-negative whole f |
| FriendshipBoosterItem.TwoStacksDouble | src/items/held-items/friendship-booster.ts:19 | two stacks exactly double a whole friendship value |
| FriendshipBoosterItem.BoostedFriendshipMonotone | src/items/held-items/friendship-booster.ts:19 | more stacks never give less friendship |
| FriendshipBoosterItem.FriendshipBoosterHeldItem.constructor | src/items/held-items/friendship-booster.ts:6-7 | the effect list is exactly `[FRIENDSHIP_BOOSTER]` |
| FriendshipBoosterItem.FriendshipBoosterHeldItem.Apply | src/items/held-items/friendship-booster.ts:17-22 | returns true; the holder becomes the floored boost of its old value by this item's stack |
| NatureWeightBoosterItem.WeightedMultiplier | src/items/held-items/nature-weight-booster.ts:25-26 | 1 stays 1; above 1 it adds 0.1·s; below 1 it subtracts 0.1·s |
| NatureWeightBoosterItem.NeverCloserToOne | src/items/held-items/nature-weight-booster.ts:26 | the distance from 1 grows by exactly 0.1·s, or by 0 at 1; the value stays on its side of 1 |
| NatureWeightBoosterItem.ZeroStacksKeep | src/items/held-items/nature-weight-booster.ts:24-26 | stack 0 leaves any multiplier unchanged |
| NatureWeightBoosterItem.NatureWeightBoosterHeldItem.constructor | src/items/held-items/nature-weight-booster.ts:12-13 | the effect list is exactly `[NATURE_WEIGHT_BOOSTER]` |
| NatureWeightBoosterItem.NatureWeightBoosterHeldItem.Apply | src/items/held-items/nature-weight-booster.ts:21-31 | returns true exactly when the old multiplier is not 1 (even with stack 0); the new value is the weighted multiplier |
| BerryItem.BerryTypeToHeldItem | src/items/held-items/berry.ts:14-26 | every berry type maps into SITRUS_BERRY..LEPPA_BERRY (0x0101-0x010B) |
| BerryItem.BerryTypeToHeldItemInjective | src/items/held-items/berry.ts:14-26 | distinct berry types get distinct ids |
| BerryItem.BerryTypeToHeldItemOnto | src/items/held-items/berry.ts:14-26 | every id in 0x0101-0x010B is some berry's, and the berry group of the `HeldItemId` table has no gap there |
| BerryItem.BerryTypeToHeldItemMatchesName | src/items/held-items/berry.ts:14-26 | each berry type maps to the `HeldItemId` entry of the same name: the entry at its id is the type's key followed by `_BERRY` |
| BerryItem.MaxHeldItemCount | src/items/held-items/berry.ts:93-98 | 2 exactly for LUM, LEPPA, SITRUS and ENIGMA, 3 exactly for the others |
| BerryItem.ToLower | src/items/held-items/berry.ts:56 | an upper-case ASCII letter becomes its own lower-case letter (code point + 32); every other character is unchanged |
| BerryItem.LowerCase | src/items/held-items/berry.ts:56 | same length, lower-cased character by character |
| BerryItem.IconName | src/items/held-items/berry.ts:55-57 | the lower-cased berry-type name followed by `_berry`, with no upper-case letter |
| BerryItem.SitrusIcon | src/items/held-items/berry.ts:56 | the SITRUS icon is `sitrus_berry` |
| BerryItem.ApplyEvents | src/items/held-items/berry.ts:77-88 | the effect runs first, then consume, then the eaten record; both get the same `consumed` flag, which is the negated preserve result |
| BerryItem.BerryHeldItem.constructor | src/items/held-items/berry.ts:40-45 | the item id comes from `berryTypeToHeldItem`; the berry type and cap are stored |
| BerryItem.BerryHeldItem.Apply | src/items/held-items/berry.ts:73-91 | returns true; appends exactly the three events of `ApplyEvents` to the log |
| HeldItemIds.GroupsWellFormed | src/enums/held-item-id.ts:4-90 | ten commented groups, whose high bytes are 0x01..0x0A in order, with low bytes counting from 1 inside each |
| HeldItemIds.FlattenIncreasing | src/enums/held-item-id.ts:4-90 | well-formed groups with increasing high bytes list their ids in strictly increasing order |
| HeldItemIds.HeldItemIdsDistinct | src/enums/held-item-id.ts:1-91 | NONE is first and is 0; ids strictly increase in declaration order, so all are distinct |
| HeldItemIds.GroupRanges | src/enums/held-item-id.ts:5-39 | berries are exactly 0x0101..0x010B (11 ids); type boosters are exactly 0x0301..0x0312 (18 ids) |
| HeldItemIds.NamesOfDomain | src/enums/held-item-id.ts:99-105 | the keys of the reduced map are exactly the ids of the entries |
| HeldItemIds.NamesOfInverts | src/enums/held-item-id.ts:99-105 | with distinct ids, the reduced map sends each id back to its own key |
| HeldItemIds.HeldItemNamesInvertsHeldItemId | src/enums/held-item-id.ts:99-105 | `HeldItemNames[HeldItemId[k]] == k` for every key k, and `HeldItemNames` has no other keys |
| HeldItemIds.BuildHeldItemNames | src/enums/held-item-id.ts:99-105 | the reduce loop builds exactly the reverse map, which covers every id and inverts when ids are distinct |
| HeldItems.AttackTypeToHeldItemType | src/modifier/held-items.ts:132-151 | defined exactly for the 18 types NORMAL..FAIRY, with values in SILK_SCARF..FAIRY_FEATHER |
| HeldItems.AttackTypeMapInjective | src/modifier/held-items.ts:132-151 | two types with the same booster are the same type |
| HeldItems.AttackTypeMapIsOffset | src/modifier/held-items.ts:132-151 | a type's booster is SILK_SCARF + the type's number |
| HeldItems.BoostedTypeAt | src/modifier/held-items.ts:132-151 | the j-th listed type has number j and maps to SILK_SCARF + j |
| HeldItems.HeldItem.constructor | src/modifier/held-items.ts:46-53 | stores type and cap (default 1); transferable, stealable and suppressable all start true |
| HeldItems.HeldItem.AttackTypeBoosterItem | src/modifier/held-items.ts:157-162 | a booster for its move type and power boost, with all three flags true |
| HeldItems.HeldItem.Untransferable | src/modifier/held-items.ts:73-76 | clears only the transferable flag and returns the same object |
| HeldItems.HeldItem.Unstealable | src/modifier/held-items.ts:78-81 | clears only the stealable flag and returns the same object |
| HeldItems.HeldItem.Unsuppressable | src/modifier/held-items.ts:83-86 | clears only the suppressable flag and returns the same object |
| HeldItems.HeldItem.IconStackText | src/modifier/held-items.ts:108-121 | no text exactly when the cap is 1; otherwise the count is shown, tinted exactly when count ≥ cap |
| HeldItems.HeldItem.Apply | src/modifier/held-items.ts:178-182 | the holder becomes the boosted power of its old value |
| HeldItems.BoostedPower | src/modifier/held-items.ts:178-182 | unchanged unless the move type matches and power ≥ 1, in which case it is floor(v·(1 + s·boost)); stack 0 keeps whole powers; a non-negative boost never lowers a whole power |
| HeldItems.BoostedPowerOnMatch | src/modifier/held-items.ts:179-180 | on a matching type with power ≥ 1 the result is `Math.floor(v*(1+s*boost))` |
| HeldItems.BoostExample | src/modifier/held-items.ts:180 | power 100 with two stacks of a 0.2 booster becomes 140 |
| HeldItems.ApplyAttackTypeBoosterHeldItem | src/modifier/held-items.ts:185-193 | no Pokemon leaves the power unchanged; otherwise each held booster is applied in order to the one holder |
| HeldItems.BoostAll | src/modifier/held-items.ts:185-193 | a power below 1 is never boosted; with non-negative boosts a whole power stays whole and never drops |
| HeldItems.BoostAllNoMatch | src/modifier/held-items.ts:185-193 | when no held item boosts the move type, the power is unchanged |
| HeldItems.AtMostOneBoosterApplies | src/modifier/held-items.ts:185-193 | with a type-keyed registry and distinct held ids, at most one held item boosts a move type, and the result is that one item's boost |
| HeldItems.BoostAllSplit | src/modifier/held-items.ts:185-193 | when only entry k boosts, applying all entries equals applying entry k |
| HeldItems.KeyedByTypeUpdate | src/modifier/held-items.ts:206 | registering a booster under its own type's id keeps the registry keyed by type |
| HeldItems.HeldItemRegistry.constructor | src/modifier/held-items.ts:199 | the registry starts empty |
| HeldItems.HeldItemRegistry.InitHeldItems | src/modifier/held-items.ts:201-208 | every id SILK_SCARF..FAIRY_FEATHER gets a booster with cap 99, boost 0.2 and the move type that maps to it; other ids are untouched; the registry stays keyed by type |
| ItemUtility.LocaleCompare | src/items/item-utility.ts:8 | returns -1, 0 or 1, and returns 0 exactly for equal names |
| ItemUtility.IdThenName | src/items/item-utility.ts:7-16 | `a - b` for distinct ids; for equal ids, 0 exactly when the names are equal |
| ItemUtility.TrainerItemSortFunc | src/items/item-utility.ts:7-16 | needs both ids registered; `a - b` for distinct ids; 0 exactly when the ids are equal |
| ItemUtility.HeldItemSortFunc | src/items/item-utility.ts:19-28 | needs both ids registered; `a - b` for distinct ids; 0 exactly when the ids are equal |
| ItemUtility.FormChangeItemSortFunc | src/items/item-utility.ts:30-41 | `a - b` for distinct ids; 0 exactly when the ids are equal |
| ItemUtility.IdOrderIsTotalOrder | src/items/item-utility.ts:7-28 | both registry comparators are sign-antisymmetric and transitive, and say "not after" exactly when a ≤ b |
| ItemUtility.FormChangeOrderIsTotalOrder | src/items/item-utility.ts:30-41 | the form-change comparator is sign-antisymmetric and transitive, and says "not after" exactly when a ≤ b |
| ItemUtility.Insert | src/modifier/modifier-bar.ts:69 | insertion adds exactly the one element (as a multiset) |
| ItemUtility.InsertSorted | src/modifier/modifier-bar.ts:69 | inserting into a sorted list keeps it sorted |
| ItemUtility.SortIds | src/modifier/modifier-bar.ts:69-72 | sorting is a permutation of its input |
| ItemUtility.SortIdsSorted | src/modifier/modifier-bar.ts:69-72 | the sorted ids ascend |
| ItemUtility.SortIdsFollowsComparators | src/modifier/modifier-bar.ts:69-72 | every earlier sorted id compares "not after" every later one under the trainer-item and held-item comparators |
| ItemUtility.SortedPermutationUnique | src/modifier/modifier-bar.ts:69-72 | two sorted permutations of the same ids are equal, so the result does not depend on the sort algorithm |
| ModifierBar.Ceil | src/modifier/modifier-bar.ts:135 | `Math.ceil`: the least integer not below its argument |
| ModifierBar.RowIcons | src/modifier/modifier-bar.ts:135 | always 12, whatever the item count, since ceil(min(n,24)/12) ≤ 2 |
| ModifierBar.IconX | src/modifier/modifier-bar.ts:137-140 | x = (index mod 12)·26, negated on the enemy bar |
| ModifierBar.IconY | src/modifier/modifier-bar.ts:138 | y = floor(index / 12)·20 |
| ModifierBar.MakeIcon | src/modifier/modifier-bar.ts:106-111 | the icon shows its item and tooltip name, and is visible exactly when its index is below the first hidden index |
| ModifierBar.IconsUpTo | src/modifier/modifier-bar.ts:76-97 | after n additions, the k-th child is the icon made for item k at index k |
| ModifierBar.NamesOf | src/modifier/modifier-bar.ts:80 | one tooltip name per item, read from the registry |
| ModifierBar.Reverse | src/modifier/modifier-bar.ts:99-101 | the children in reverse order |
| ModifierBar.VisibleCount | src/modifier/modifier-bar.ts:106-109 | never more than the number of icons |
| ModifierBar.VisibleUpTo | src/modifier/modifier-bar.ts:106-109 | after n additions, exactly min(n, first hidden index) icons are visible |
| ModifierBar.OverflowVisibility | src/modifier/modifier-bar.ts:127-132 | in the reversed child list, positions 24 and later get the given visibility; the rest are untouched |
| ModifierBar.ItemBar.constructor | src/modifier/modifier-bar.ts:54-59 | a player bar unless it is for the enemy; empty cache, length 0, no children |
| ModifierBar.ItemBar.AddIcon | src/modifier/modifier-bar.ts:106-111 | appends one child, placed by its index, hidden when its 1-based number is 24 or more, that is from child index 23 on, as written |
| ModifierBar.ItemBar.UpdateItems | src/modifier/modifier-bar.ts:66-104 | the cache is sorted trainer items, then sorted held items of A, then of B (an absent Pokemon gives none); the total length is the sum of the three lengths; the children are the numbered icons in reverse order, with the icons numbered 24 and up hidden, as written |
| ModifierBar.ItemBar.AddAllIcons | src/modifier/modifier-bar.ts:76-97 | the three loops add, in order, one icon for each trainer item, then each held item of A, then each of B, with the as-written hiding threshold |
| ModifierBar.ItemBar.AddIcons | src/modifier/modifier-bar.ts:77-81 | one `forEach` numbers its items consecutively after the icons already added, with the as-written hiding threshold |
| ModifierBar.ItemBar.SendAllToBack | src/modifier/modifier-bar.ts:99-101 | sending each child to the back in turn reverses the children |
| ModifierBar.ItemBar.Hover | src/modifier/modifier-bar.ts:113-124 | with more than 24 cached items, pointer over reveals and pointer out hides the overflow; otherwise nothing changes |
| ModifierBar.ItemBar.UpdateItemOverflowVisibility | src/modifier/modifier-bar.ts:127-132 | sets the overflow children's visibility and changes nothing else |
| ModifierBar.HoverRevealsEveryIcon | src/modifier/modifier-bar.ts:106-132 | with the corrected threshold, hovering shows every icon, and moving off restores the bar exactly |
| ModifierBar.HoverLeavesIcon24Hidden | src/modifier/modifier-bar.ts:106-132 | as written, the children `UpdateItems` leaves, with more than 24 items: hovering shows every icon except the one numbered 24 |
| ModifierBar.CacheNames | src/modifier/modifier-bar.ts:103 | one tooltip name per cached item |
| ModifierBar.CacheSlices | src/modifier/modifier-bar.ts:103 | the cache and its names split into the trainer part, the A part and the B part |
| ModifierBar.SortedInRegistry | src/modifier/modifier-bar.ts:69-72 | sorting keeps the length, and keeps every id registered |
| MoveChargePhase.Pokemon.AddTag | src/phases/move-charge-phase.ts:47 | appends exactly one battler tag; the move queue and move history are unchanged |
| MoveChargePhase.Pokemon.PushMoveHistory | src/phases/move-charge-phase.ts:72-76 | appends exactly one record; the tags and move queue are unchanged |
| MoveChargePhase.FirstMatch | src/phases/move-charge-phase.ts:64 | the index of the first element satisfying the predicate, or the length if there is none |
| MoveChargePhase.RemoveFirst | src/phases/move-charge-phase.ts:64 | with a match, one element shorter: the elements before the first match are kept and the later ones move up by one; with no match, unchanged |
| MoveChargePhase.RemoveFirstKeepsOthers | src/phases/move-charge-phase.ts:64 | removal takes away exactly one matching element when there is one; every non-matching element keeps its multiplicity |
| MoveChargePhase.EndSpec | src/phases/move-charge-phase.ts:53-79 | the phase always ends and the tags are untouched. A non-charging move changes nothing else. A charging move adds exactly one `{move, [target], OTHER}` history record. If not instant, it appends exactly one move-queue entry and leaves the phase queue unchanged. If instant, it leaves the move queue unchanged, puts a MovePhase for this user, target and move at the front, and after it the old queue with this user's first move-end phase spliced out, every other phase in its old order |
| MoveChargePhase.StartSpec | src/phases/move-charge-phase.ts:29-50 | no target or a non-charging move: the phase ends with no tag, no queue entry and no record. Otherwise: exactly one CHARGING tag (1 turn, this move, this user), exactly one OTHER record, and the move queue changes exactly when the charge is not instant |
| MoveChargePhase.GetTargetPokemon | src/phases/move-charge-phase.ts:85-87 | none exactly when no Pokemon on the field has the target battler index; otherwise one on the field |
| MoveChargePhase.PhaseManager.TryRemovePhase | src/phases/move-charge-phase.ts:64 | removes the first matching phase; returns true exactly when one matched |
| MoveChargePhase.PhaseManager.UnshiftNew | src/phases/move-charge-phase.ts:66 | the new phase goes to the front of the queue |
| MoveChargePhase.MoveChargePhase.constructor | src/phases/move-charge-phase.ts:23-27 | stores the user, the target index and the move; the phase has not ended |
| MoveChargePhase.MoveChargePhase.Start | src/phases/move-charge-phase.ts:29-50 | the new state is `StartSpec` of the old state |
| MoveChargePhase.MoveChargePhase.End | src/phases/move-charge-phase.ts:53-79 | the new state is `EndSpec` of the old state |
| Dialogue.CloseAt | src/data/dialogue.ts:1739 | finds the `}` that closes a lazy `(.*?)` group, or proves there is none before a line terminator |
| Dialogue.FindVariant | src/data/dialogue.ts:1739 | the leftmost match of `@c\{(.*?)\}` at or after i, or none when there is no match |
| Dialogue.GetCharVariantFromDialogue | src/data/dialogue.ts:1738-1744 | the result has no `}` and no line terminator, and is either "neutral" or such that `"@c{" + r + "}"` occurs in the message |
| Dialogue.CloseIsUnique | src/data/dialogue.ts:1739 | a group can close in only one place |
| Dialogue.CharVariantIsLeftmostMatch | src/data/dialogue.ts:1739-1741 | when the leftmost match spans i..j, the result is the text between `@c{` and the first following `}` |
| Dialogue.CharVariantNeutral | src/data/dialogue.ts:1743 | with no match the result is "neutral" |
| Dialogue.CharVariantExamples | src/data/dialogue.ts:1738-1744 | `"@c{}"` gives ""; `"Hi @c{smile}!"` gives "smile"; a line break inside the braces gives "neutral" |
| Dialogue.BaseFieldNameIs | src/data/dialogue.ts:1754 | the base fields are encounterMessages, victoryMessages and defeatMessages |
| Dialogue.FemaleFieldNameIs | src/data/dialogue.ts:1757 | the female fields are femaleEncounterMessages, femaleVictoryMessages and femaleDefeatMessages |
| Dialogue.FieldNames | src/data/dialogue.ts:1754-1757 | each field name identifies its message type and whether it is the female field |
| Dialogue.Truthy | src/data/dialogue.ts:1753 | `undefined` and the empty string are falsy; an array is truthy, even an empty one |
| Dialogue.CopyMessages | src/data/dialogue.ts:1752-1761 | one message type's pass adds at most its base and female fields and leaves every other field as it was |
| Dialogue.CopyTypes | src/data/dialogue.ts:1751-1762 | the passes never remove a field; CopyTypesFields gives their effect field by field |
| Dialogue.ApplyEntry | src/data/dialogue.ts:1749-1763 | applying an entry keeps every field and leaves the non-message fields unchanged |
| Dialogue.CopyTypesFields | src/data/dialogue.ts:1751-1763 | after n passes of the type loop, the fields of the first n types hold their expected values and every other field is untouched |
| Dialogue.ApplyEntryFields | src/data/dialogue.ts:1749-1763 | An array entry sets the base field only when its first element's value is truthy, and sets the female field whenever there is a second element, even to undefined. A single entry sets the base field unconditionally. Every other field is untouched |
| Dialogue.TrainerConfigs.InitTrainerTypeDialogue | src/data/dialogue.ts:1746-1765 | every trainer type that has dialogue gets its entry applied; all other configurations are unchanged |
| Dialogue.TrainerConfigs.CopyDialogue | src/data/dialogue.ts:1749-1763 | one trainer type's configuration becomes the entry applied to it; the others are unchanged |
| MockTextModel.Split | test/testUtils/mocks/mocksContainer/mockText.ts:43 | at least one piece; no piece contains the separator |
| MockTextModel.SplitLines | test/testUtils/mocks/mocksContainer/mockText.ts:36-37 | at least one line; no line contains `\r` or `\n` |
| MockTextModel.JoinSplit | test/testUtils/mocks/mocksContainer/mockText.ts:43 | joining the pieces with the separator gives back the string |
| MockTextModel.JoinSplitLines | test/testUtils/mocks/mocksContainer/mockText.ts:36-37 | joining the lines with `\n` turns every `\r\n`, `\r` and `\n` into `\n` |
| MockTextModel.ConcatSplitLines | test/testUtils/mocks/mocksContainer/mockText.ts:36-37 | the lines concatenated are the text without its line breaks |
| MockTextModel.BreakCount | test/testUtils/mocks/mocksContainer/mockText.ts:36-37 | the number of lines is one more than the number of line breaks |
| MockTextModel.Step | test/testUtils/mocks/mocksContainer/mockText.ts:46-71 | one word pass emits the word and, unless it is the last word, a space; a newline goes first only when there is a width and it is not the first word; an undefined space left stays undefined |
| MockTextModel.WrapState | test/testUtils/mocks/mocksContainer/mockText.ts:42-72 | without a width the space left stays undefined through every pass |
| MockTextModel.WrapLine | test/testUtils/mocks/mocksContainer/mockText.ts:41-72 | a line without a space comes back unchanged, whatever the width |
| MockTextModel.Wrapped | test/testUtils/mocks/mocksContainer/mockText.ts:41-77 | the output has at least one character for each line break emitted between lines |
| MockTextModel.WordWrap | test/testUtils/mocks/mocksContainer/mockText.ts:31-80 | an undefined or empty text gives ""; otherwise the output has at least one character per line break |
| MockTextModel.StepShape | test/testUtils/mocks/mocksContainer/mockText.ts:46-71 | one word pass emits the word and, unless it is the last word, a space, optionally preceded by a newline, but never before the first word; with no width it never emits a newline |
| MockTextModel.WrapStateText | test/testUtils/mocks/mocksContainer/mockText.ts:46-72 | deleting the newlines from a wrapped line gives the words joined by spaces |
| MockTextModel.WrapNewlineFollowsSpace | test/testUtils/mocks/mocksContainer/mockText.ts:55-68 | every inserted newline follows a space: the wrapped line keeps its trailing space |
| MockTextModel.NoWidthNoBreak | test/testUtils/mocks/mocksContainer/mockText.ts:42-72 | without a width, the line is the words joined by spaces |
| MockTextModel.NoWidthLine | test/testUtils/mocks/mocksContainer/mockText.ts:41-72 | without a width, a line is unchanged |
| MockTextModel.WrapLineText | test/testUtils/mocks/mocksContainer/mockText.ts:41-72 | deleting the newlines from a wrapped line gives the line back |
| MockTextModel.WrappedText | test/testUtils/mocks/mocksContainer/mockText.ts:41-77 | deleting the newlines from the wrapped first n lines gives those lines concatenated |
| MockTextModel.WrappedNoWidth | test/testUtils/mocks/mocksContainer/mockText.ts:41-77 | without a width, the output is the lines joined by `\n` |
| MockTextModel.WrappedBreaks | test/testUtils/mocks/mocksContainer/mockText.ts:74-76 | there is at least one newline between consecutive lines |
| MockTextModel.WordWrapEmpty | test/testUtils/mocks/mocksContainer/mockText.ts:32-34 | an undefined or empty text wraps to "" |
| MockTextModel.WordWrapKeepsText | test/testUtils/mocks/mocksContainer/mockText.ts:31-80 | deleting every newline from the output gives the input with its line breaks removed |
| MockTextModel.WordWrapNoWidth | test/testUtils/mocks/mocksContainer/mockText.ts:31-80 | with no width set, the output is the input with every `\r\n` and `\r` turned into `\n`; no newline is inserted |
| MockTextModel.WordWrapBreaks | test/testUtils/mocks/mocksContainer/mockText.ts:31-80 | the output has at least as many newlines as the input has line breaks |
| MockTextModel.WrapLineNewlines | test/testUtils/mocks/mocksContainer/mockText.ts:55-68 | in a wrapped line, every newline follows a space |
| MockTextModel.IndexOf | test/testUtils/mocks/mocksContainer/mockText.ts:285 | -1 exactly when absent; otherwise the first position holding the object |
| MockTextModel.SpliceStart | test/testUtils/mocks/mocksContainer/mockText.ts:281 | the start index `splice` uses: in range as given, negative counted from the end, clamped to 0..length |
| MockTextModel.ElementAt | test/testUtils/mocks/mocksContainer/mockText.ts:297 | an element exactly for an index in range |
| MockTextModel.RemoveFirst | test/testUtils/mocks/mocksContainer/mockText.ts:284-289 | unchanged when the object is absent; otherwise one shorter, with the children before its first occurrence kept and every later child moved up one place, in order |
| MockTextModel.RemoveFirstOne | test/testUtils/mocks/mocksContainer/mockText.ts:284-289 | removes one occurrence when present (length drops by one); unchanged when absent |
| MockTextModel.ElementAtIndexOf | test/testUtils/mocks/mocksContainer/mockText.ts:285-297 | the element at an object's index is that object |
| MockTextModel.ElementAtInserted | test/testUtils/mocks/mocksContainer/mockText.ts:279-297 | after `addAt`, the clamped insertion index holds the new object |
| MockTextModel.GetIndexAsWritten | test/testUtils/mocks/mocksContainer/mockText.ts:291-294 | as written: -1 exactly when the object is absent or is the first child; otherwise its first position, which is above 0 |
| MockTextModel.GetIndexAsWrittenMissesFirst | test/testUtils/mocks/mocksContainer/mockText.ts:291-294 | as written, the first child is reported at -1, as if absent |
| MockTextModel.MockText.constructor | test/testUtils/mocks/mocksContainer/mockText.ts:10-29 | the child list starts empty and no wrap width is set |
| MockTextModel.MockText.SetWordWrapWidth | test/testUtils/mocks/mocksContainer/mockText.ts:188-191 | sets the width, and leaves the children unchanged |
| MockTextModel.MockText.RunWordWrap | test/testUtils/mocks/mocksContainer/mockText.ts:31-80 | the two nested loops compute `WordWrap` of the text with the current width |
| MockTextModel.MockText.AppendWrappedLine | test/testUtils/mocks/mocksContainer/mockText.ts:46-72 | the inner loop appends the wrapped line to the result |
| MockTextModel.MockText.Add | test/testUtils/mocks/mocksContainer/mockText.ts:269-272 | appends the object |
| MockTextModel.MockText.RemoveAll | test/testUtils/mocks/mocksContainer/mockText.ts:274-277 | empties the list |
| MockTextModel.MockText.Destroy | test/testUtils/mocks/mocksContainer/mockText.ts:226-229 | empties the list |
| MockTextModel.MockText.AddAt | test/testUtils/mocks/mocksContainer/mockText.ts:279-282 | inserts the object at the clamped splice index |
| MockTextModel.MockText.Remove | test/testUtils/mocks/mocksContainer/mockText.ts:284-289 | deletes only the first occurrence; does nothing when the object is absent |
| MockTextModel.MockText.GetIndex | test/testUtils/mocks/mocksContainer/mockText.ts:291-294 | corrected: -1 exactly when absent, otherwise the first position holding the object (see Findings) |
| MockTextModel.MockText.GetAt | test/testUtils/mocks/mocksContainer/mockText.ts:296-298 | the child at the index, or none out of range |
| BugTypeSuperfan.BreakpointsReached | src/data/mystery-encounters/encounters/bug-type-superfan-encounter.ts:182 | counts at most all the breakpoints |
| BugTypeSuperfan.ReachedIsPrefix | src/data/mystery-encounters/encounters/bug-type-superfan-encounter.ts:182 | for increasing breakpoints, exactly the first n breakpoints are at or below the wave |
| BugTypeSuperfan.Branch | src/data/mystery-encounters/encounters/bug-type-superfan-encounter.ts:531-715 | one of the eight branches |
| BugTypeSuperfan.ExactlyOneBranch | src/data/mystery-encounters/encounters/bug-type-superfan-encounter.ts:531-715 | the breakpoints 30..160 strictly increase, and b is the branch taken iff every earlier breakpoint is reached and breakpoint b is not |
| BugTypeSuperfan.LayoutFollowsBranch | src/data/mystery-encounters/encounters/bug-type-superfan-encounter.ts:531-715 | the default template exactly in the first branch; the plain Beedrill lead up to branch 3; boss leads exactly in the last branch |
| BugTypeSuperfan.SlotsFillTemplate | src/data/mystery-encounters/encounters/bug-type-superfan-encounter.ts:531-715 | the number of member functions equals the template's party size (2 for the default template) |
| BugTypeSuperfan.TemplateByWave | src/data/mystery-encounters/encounters/bug-type-superfan-encounter.ts:531-675 | below 30 the default; 30-49, 50-69 and 70-139 use 3, 4 and 5 average; from 140 on, 4 average + 1 strong |
| BugTypeSuperfan.LeadsByWave | src/data/mystery-encounters/encounters/bug-type-superfan-encounter.ts:531-715 | slots 0 and 1 are Beedrill and Butterfree; they take form 1 exactly from wave 100, and are 2-segment bosses exactly from wave 160 |
| BugTypeSuperfan.LayoutForWave | src/data/mystery-encounters/encounters/bug-type-superfan-encounter.ts:531-715 | there are at least two slots, and slot 0 is always Beedrill and slot 1 Butterfree |
| BugTypeSuperfan.IntroSpriteForm | src/data/mystery-encounters/encounters/bug-type-superfan-encounter.ts:227-234 | form 0 or 1, and 1 exactly from wave 100 |
| BugTypeSuperfan.IntroMatchesParty | src/data/mystery-encounters/encounters/bug-type-superfan-encounter.ts:227-234 | the intro sprites show form 1 exactly when the party's leads have form 1 |
| BugTypeSuperfan.Pool3Slots | src/data/mystery-encounters/encounters/bug-type-superfan-encounter.ts:531-715 | where each pool-3 draw lands per wave range; the second draw is used only in 120-139 and from 160 |
| BugTypeSuperfan.Pool3NotLead | src/data/mystery-encounters/encounters/bug-type-superfan-encounter.ts:113-143 | no pool-3 entry is Beedrill or Butterfree |
| BugTypeSuperfan.Pool3NoRepeats | src/data/mystery-encounters/encounters/bug-type-superfan-encounter.ts:113-143 | no pool-3 entry occurs twice |
| BugTypeSuperfan.Pool3SpeciesDiffer | src/data/mystery-encounters/encounters/bug-type-superfan-encounter.ts:113-143 | distinct pool-3 entries have distinct species |
| BugTypeSuperfan.PopsDiffer | src/data/mystery-encounters/encounters/bug-type-superfan-encounter.ts:527-590 | popping a shuffle of a repeat-free pool, reshuffling the rest and popping again gives two different members of the pool |
| BugTypeSuperfan.Pool3DrawsDiffer | src/data/mystery-encounters/encounters/bug-type-superfan-encounter.ts:527-590 | the two pool-3 draws are pool-3 entries with different species |
| BugTypeSuperfan.DrawnMembersDiffer | src/data/mystery-encounters/encounters/bug-type-superfan-encounter.ts:588-714 | in the two-draw wave ranges, the two drawn party slots have different species |
| BugTypeSuperfan.Slots | src/data/mystery-encounters/encounters/bug-type-superfan-encounter.ts:533-714 | slot i holds member i, for exactly the slots of the list |
| BugTypeSuperfan.TrainerConfig.Clone | src/data/mystery-encounters/encounters/bug-type-superfan-encounter.ts:524 | a fresh configuration with the same name, template and member functions |
| BugTypeSuperfan.TrainerConfig.SetPartyTemplates | src/data/mystery-encounters/encounters/bug-type-superfan-encounter.ts:538 | sets the template only |
| BugTypeSuperfan.TrainerConfig.SetPartyMemberFunc | src/data/mystery-encounters/encounters/bug-type-superfan-encounter.ts:534 | sets one slot only |
| BugTypeSuperfan.GetTrainerConfigForWave | src/data/mystery-encounters/encounters/bug-type-superfan-encounter.ts:522-718 | A fresh configuration named as given. Its template is the wave's template, or the registered one below wave 30. Its member functions are the registered ones overridden slot by slot by the wave's layout, which uses the two pool-3 pops |
| BugTypeSuperfan.SpecialOptions | src/data/mystery-encounters/encounters/bug-type-superfan-encounter.ts:382-397 | at most four special items, each present exactly when it is on offer |
| BugTypeSuperfan.Tier | src/data/mystery-encounters/encounters/bug-type-superfan-encounter.ts:337-370 | one of four reward tiers |
| BugTypeSuperfan.ShowOffBugTypes | src/data/mystery-encounters/encounters/bug-type-superfan-encounter.ts:337-412 | one to four rewards; the Master Ball is among them exactly with six or more Bug types |
| BugTypeSuperfan.TopTierRewards | src/data/mystery-encounters/encounters/bug-type-superfan-encounter.ts:373-400 | one to four rewards, the Master Ball first |
| BugTypeSuperfan.ShowOffByTier | src/data/mystery-encounters/encounters/bug-type-superfan-encounter.ts:337-412 | 0-1, 2-3 and 4-5 Bug types give the three fixed reward lists; six or more give the top tier; the selected text always matches the tier |
| BugTypeSuperfan.AccessRewardsShape | src/data/mystery-encounters/encounters/bug-type-superfan-encounter.ts:373-381 | Master Ball first, then the Mega Bracelet exactly when it is not owned and the Dynamax Band exactly when it is not owned; nothing repeated |
| BugTypeSuperfan.TopTierContents | src/data/mystery-encounters/encounters/bug-type-superfan-encounter.ts:373-400 | Master Ball first; each access item exactly when it is not owned; one special item exactly when any is on offer, taken from the offers; 1 to 4 rewards with no repeats |
| BugTypeSuperfan.BestBallByTier | src/data/mystery-encounters/encounters/bug-type-superfan-encounter.ts:337-412 | the best ball in the rewards ranks one above the tier: Great, Ultra, Rogue, Master |
| BugTypeSuperfan.BallImprovesWithBugTypes | src/data/mystery-encounters/encounters/bug-type-superfan-encounter.ts:337-412 | showing off more Bug types never earns a worse ball |
| BugTypeSuperfan.TutorOptions | src/data/mystery-encounters/encounters/bug-type-superfan-encounter.ts:301-305 | exactly four moves, one each from the physical, special, status and misc pools, in that order |
| BugTypeSuperfan.TutorOptionsDistinct | src/data/mystery-encounters/encounters/bug-type-superfan-encounter.ts:147-177 | the four offered moves are pairwise different |
| BugTypeSuperfan.EveryTutorChoiceOffered | src/data/mystery-encounters/encounters/bug-type-superfan-encounter.ts:301-305 | every choice of one move per pool is offered for some rolls |
| BugTypeSuperfan.AfterMoveTutor | src/data/mystery-encounters/encounters/bug-type-superfan-encounter.ts:774-778 | a learn-move phase for the chosen Pokemon and move goes to the front exactly when a result came back with an option index among the moves; the rest of the queue is kept |
| BugTypeSuperfan.TutorTeachesOfferedMove | src/data/mystery-encounters/encounters/bug-type-superfan-encounter.ts:759-778 | the queue gains at most one learn-move phase at the front, and its move is one of the four offered |
| BugTypeSuperfan.ValidItems | src/data/mystery-encounters/encounters/bug-type-superfan-encounter.ts:449-457 | a filter: each held item that is a Quick Claw, a Grip Claw or a Bug-type booster and is transferable is kept, as often as it is held, and no other; the kept items stay in held order (a subsequence) |
| BugTypeSuperfan.Selectable | src/data/mystery-encounters/encounters/bug-type-superfan-encounter.ts:476-485 | any held bug item makes a Pokemon selectable, transferable or not; a Pokemon holding nothing is never selectable |
| BugTypeSuperfan.ValidItemsVersusSelectable | src/data/mystery-encounters/encounters/bug-type-superfan-encounter.ts:447-485 | a Pokemon with an item to trade is selectable; a selectable Pokemon whose items are all transferable has an item to trade |
| BugTypeSuperfan.SelectableWithNothingToOffer | src/data/mystery-encounters/encounters/bug-type-superfan-encounter.ts:476-485 | a Pokemon holding only an untransferable Quick Claw passes the selection filter but is offered no item |

## Left out

- Animation, text, sound, tooltips and i18n are not modelled:
  - the charge animation is taken to call back synchronously;
  - item names, descriptions and the encounter's dialogue keys are not modelled beyond the option-2 selected-text keys.
- `applyMoveChargeAttrs` is an input. The instant-charge flag and the charging-move check are parameters.
- The phase manager is not part of this model. `tryRemovePhase` is modelled as removing the first matching queued phase, and `unshiftNew` as inserting at the front.
- Floating point is not modelled. Holder values are exact `real`s, so 0.1, 0.2 and 0.5 are exact. JavaScript double rounding, for example a nature weight drifting by 0.1·s, is not captured.
- The stack lookup of the held-item manager is a map parameter. The item registries (`allHeldItems`, `allTrainerItems`) are map parameters too.
- ItemUtility.LocaleCompare: only its sign range and "0 exactly for equal strings" are stated, because `String.prototype.localeCompare` is locale dependent. The comparators only use its result for equal ids, where the names are equal.
- `Array.prototype.sort` is modelled on values by an insertion sort, proved sorted and a permutation. Since ids are distinct under the comparators, any correct sort gives the same list (SortedPermutationUnique). In-place sorting and aliasing are not captured.
- ModifierBar.ItemBar follows the code as written: it hides icons from number 24 on. The corrected threshold appears only in HoverRevealsEveryIcon, through the threshold parameter of the icon functions; there is no second, corrected class.
- Phaser containers are not modelled: `getAll`, `sendToBack`, `setInteractive` and the pointer events are reduced to an explicit child list and a `Hover` call.
- The berry effect function, `consume`, `recordEatenBerry` and the preserve-berry modifiers are not modelled. They become events in a log, and the preserve result is an input.
- The `BerryType` enum's numeric values are not modelled; berry types are an enumeration.
- The dialogue data table is input only. The `Object.keys` order of trainer types is an input sequence of ascending numbers.
- Dialogue message values are abstract, with a truthiness flag. Only the copying is modelled, not the message text.
- The text mock's other setters are not modelled: `setText`, `setOrigin`, `showText` and the like only record values.
- In the text mock, the wrap width is an optional integer, and "no width set" is `None`.
- MockTextModel.Step: a word's width is 2 per Unicode scalar value, where JavaScript's `length` counts UTF-16 code units. A character outside the Basic Multilingual Plane counts once here and twice in the source, so such text can wrap at different places.
- Dialogue.CopyMessages: an array entry with no element makes the source throw a `TypeError` when it reads `messages[0]`. The model requires a non-empty array instead of modelling the throw.
- Dialogue.TrainerConfigs.InitTrainerTypeDialogue: a trainer type with dialogue but no trainer configuration makes the source throw a `TypeError`. The model requires every such type to have a configuration instead of modelling the throw.
- Bug-Type Superfan randomness is all input:
  - `randSeedInt` and `randSeedShuffle` results are parameters;
  - the two shuffles are given as permutations of the pool and of its remainder.
- Bug-Type Superfan: `getRandomPartyMemberFunc` is a descriptor, holding the species pool, the form index and the boss segments. The party is not generated.
- Bug-Type Superfan: the registered trainer configuration is an input. Only its name, template and member functions are modelled, and the setter chain is a sequence of method calls on that class.
- Bug-Type Superfan: `generateModifierTypeOption` is not modelled. Whether each special item is on offer is a boolean input, and whether the mega and gigantamax access items are owned is too.
- Bug-Type Superfan: the number of Bug types in the party is an input count.
- Bug-Type Superfan option handlers are not modelled beyond the values above:
  - the writes to `encounter.misc`;
  - `setEncounterRewards`;
  - `initBattleWithEnemyConfig`;
  - the option-3 trade itself (`loseHeldItem` and the Golden Bug Net reward).
- The encounter's option requirements are not modelled, except the option-3 item filters.
- The trash-to-treasure encounter, the title and confirm UI handlers, the form-change item, the challenge data, the data-list declarations and the game-driving test files are not part of this model.

## Findings

| source | as written | input that shows it | evidently intended | confidence | as-written member | corrected member |
|---|---|---|---|---|---|---|
| src/modifier/modifier-bar.ts:106-132 | `addIcon` hides icons numbered `i >= 24` (1-based), but the hover handler reveals only the children from 0-based position 24 on (`slice(24)` of the reversed list) | 25 or more items: the icon numbered 24 is hidden at start and stays hidden while hovering; with exactly 24 items it is hidden and the hover never runs | hide from the 25th icon on (`i > 24`), so that hovering reveals every icon | medium, not executed | ModifierBar.HoverLeavesIcon24Hidden | ModifierBar.HoverRevealsEveryIcon |
| test/testUtils/mocks/mocksContainer/mockText.ts:291-294 | `getIndex` returns `index \|\| -1`, so index 0, being falsy, becomes -1 | a list whose first child is `obj`: `getIndex(obj)` returns -1, as for an absent object | return `indexOf` unchanged | high, not executed | MockTextModel.GetIndexAsWrittenMissesFirst | MockTextModel.MockText.GetIndex |
