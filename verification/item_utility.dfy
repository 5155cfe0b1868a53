/**
 * The item comparators of src/items/item-utility.ts (copied verbatim in
 * src/modifier/modifier-bar.ts): compare by id, and by name only when the
 * ids are equal. Sorting a list of ids with any of them orders it by id.
 */
module ItemUtility {

  /**
   * The string comparison the comparators fall back on. `localeCompare` is
   * locale dependent; this stand-in compares code units, which agrees with it
   * on the one fact the comparators rely on: equal strings compare 0.
   */
  function LocaleCompare(a: string, b: string): (r: int)
    ensures -1 <= r <= 1
    ensures r == 0 <==> a == b
  {
    if |a| == 0 && |b| == 0 then 0
    else if |a| == 0 then -1
    else if |b| == 0 then 1
    else if a[0] < b[0] then -1
    else if a[0] > b[0] then 1
    else
      var r := LocaleCompare(a[1..], b[1..]);
      assert a == [a[0]] + a[1..] && b == [b[0]] + b[1..];
      r
  }

  /** The shared shape of the three comparators: the id difference, or the name comparison on a tie. */
  function IdThenName(a: int, b: int, nameA: string, nameB: string): (r: int)
    ensures a != b ==> r == a - b
    ensures a == b ==> (r == 0 <==> nameA == nameB)
  {
    var itemNameMatch := LocaleCompare(nameA, nameB);
    var itemIdMatch := a - b;
    if itemIdMatch == 0 then itemNameMatch else itemIdMatch
  }

  /**
   * `trainerItemSortFunc`. Both names are looked up before the ids are
   * compared, so both ids must be registered even when the names go unused.
   */
  function TrainerItemSortFunc(trainerItemNames: map<int, string>, a: int, b: int): (r: int)
    requires a in trainerItemNames && b in trainerItemNames
    ensures a != b ==> r == a - b
    ensures r == 0 <==> a == b
  {
    IdThenName(a, b, trainerItemNames[a], trainerItemNames[b])
  }

  /** `heldItemSortFunc`: as `trainerItemSortFunc`, over the held-item registry. */
  function HeldItemSortFunc(heldItemNames: map<int, string>, a: int, b: int): (r: int)
    requires a in heldItemNames && b in heldItemNames
    ensures a != b ==> r == a - b
    ensures r == 0 <==> a == b
  {
    IdThenName(a, b, heldItemNames[a], heldItemNames[b])
  }

  /** `formChangeItemSortFunc`: names come from a total naming function, so no registry is needed. */
  function FormChangeItemSortFunc(formChangeItemName: int -> string, a: int, b: int): (r: int)
    ensures a != b ==> r == a - b
    ensures r == 0 <==> a == b
  {
    IdThenName(a, b, formChangeItemName(a), formChangeItemName(b))
  }

  function Sign(x: int): int {
    if x < 0 then -1 else if x > 0 then 1 else 0
  }

  /**
   * A comparator whose result is the id difference on distinct ids and 0 on
   * equal ones is antisymmetric in sign and transitive: it orders ids by value.
   */
  lemma IdOrderIsTotalOrder(names: map<int, string>, a: int, b: int, c: int)
    requires a in names && b in names && c in names
    ensures Sign(HeldItemSortFunc(names, a, b)) == -Sign(HeldItemSortFunc(names, b, a))
    ensures HeldItemSortFunc(names, a, b) < 0 && HeldItemSortFunc(names, b, c) < 0 ==> HeldItemSortFunc(names, a, c) < 0
    ensures HeldItemSortFunc(names, a, b) <= 0 <==> a <= b
    ensures Sign(TrainerItemSortFunc(names, a, b)) == -Sign(TrainerItemSortFunc(names, b, a))
    ensures TrainerItemSortFunc(names, a, b) < 0 && TrainerItemSortFunc(names, b, c) < 0 ==> TrainerItemSortFunc(names, a, c) < 0
    ensures TrainerItemSortFunc(names, a, b) <= 0 <==> a <= b
  {
  }

  /** The same for `formChangeItemSortFunc`. */
  lemma FormChangeOrderIsTotalOrder(formChangeItemName: int -> string, a: int, b: int, c: int)
    ensures Sign(FormChangeItemSortFunc(formChangeItemName, a, b)) == -Sign(FormChangeItemSortFunc(formChangeItemName, b, a))
    ensures FormChangeItemSortFunc(formChangeItemName, a, b) < 0 && FormChangeItemSortFunc(formChangeItemName, b, c) < 0
            ==> FormChangeItemSortFunc(formChangeItemName, a, c) < 0
    ensures FormChangeItemSortFunc(formChangeItemName, a, b) <= 0 <==> a <= b
  {
  }

  /** Ids in ascending order, which is what sorting with the comparators yields. */
  predicate Sorted(s: seq<int>) {
    forall i, j :: 0 <= i < j < |s| ==> s[i] <= s[j]
  }

  /** Insert `x` before the first element it does not exceed. */
  function Insert(x: int, s: seq<int>): (r: seq<int>)
    ensures multiset(r) == multiset(s) + multiset{x}
  {
    if |s| == 0 then [x]
    else if x <= s[0] then [x] + s
    else
      assert s == [s[0]] + s[1..];
      [s[0]] + Insert(x, s[1..])
  }

  /** Inserting into a sorted list keeps it sorted. */
  lemma {:induction false} InsertSorted(x: int, s: seq<int>)
    requires Sorted(s)
    ensures Sorted(Insert(x, s))
  {
    if |s| == 0 {
    } else if x <= s[0] {
      ConsSorted(x, s);
    } else {
      SortedTail(s);
      InsertSorted(x, s[1..]);
      InsertLowerBound(x, s[1..], s[0]);
      ConsSorted(s[0], Insert(x, s[1..]));
    }
  }

  /** A bound below `x` and below every element stays below every element after the insertion. */
  lemma {:induction false} InsertLowerBound(x: int, t: seq<int>, b: int)
    requires b <= x && forall k :: 0 <= k < |t| ==> b <= t[k]
    ensures forall k :: 0 <= k < |Insert(x, t)| ==> b <= Insert(x, t)[k]
  {
    if |t| > 0 && x > t[0] {
      InsertLowerBound(x, t[1..], b);
      var r := [t[0]] + Insert(x, t[1..]);
      assert forall k :: 0 < k < |r| ==> r[k] == Insert(x, t[1..])[k - 1];
    }
  }

  /** A head at most every element of a sorted tail makes a sorted list. */
  lemma ConsSorted(h: int, rest: seq<int>)
    requires Sorted(rest) && forall k :: 0 <= k < |rest| ==> h <= rest[k]
    ensures Sorted([h] + rest)
  {
    var r := [h] + rest;
    forall i, j | 0 <= i < j < |r|
      ensures r[i] <= r[j]
    {
      assert r[j] == rest[j - 1];
      if i > 0 {
        assert r[i] == rest[i - 1];
      }
    }
  }

  /** `Array.prototype.sort` with an id comparator, as an insertion sort over values. */
  function SortIds(s: seq<int>): (r: seq<int>)
    ensures multiset(r) == multiset(s)
  {
    if |s| == 0 then []
    else
      assert s == [s[0]] + s[1..];
      Insert(s[0], SortIds(s[1..]))
  }

  /** `SortIds` returns the ids in ascending order. */
  lemma {:induction false} SortIdsSorted(s: seq<int>)
    ensures Sorted(SortIds(s))
  {
    if |s| > 0 {
      SortIdsSorted(s[1..]);
      InsertSorted(s[0], SortIds(s[1..]));
    }
  }

  /**
   * Consecutive or not, every pair in `SortIds` order is one the comparators
   * put in that order (a non-positive result).
   */
  lemma SortIdsFollowsComparators(s: seq<int>, names: map<int, string>)
    requires forall k :: 0 <= k < |s| ==> s[k] in names
    ensures forall i, j :: 0 <= i < j < |SortIds(s)| ==>
              SortIds(s)[i] in names && SortIds(s)[j] in names &&
              HeldItemSortFunc(names, SortIds(s)[i], SortIds(s)[j]) <= 0 &&
              TrainerItemSortFunc(names, SortIds(s)[i], SortIds(s)[j]) <= 0
  {
    var r := SortIds(s);
    SortIdsSorted(s);
    SortIdsInNames(s, names);
    forall i, j | 0 <= i < j < |r|
      ensures HeldItemSortFunc(names, r[i], r[j]) <= 0 && TrainerItemSortFunc(names, r[i], r[j]) <= 0
    {
      IdOrderIsTotalOrder(names, r[i], r[j], r[j]);
    }
  }

  lemma SortIdsInNames(s: seq<int>, names: map<int, string>)
    requires forall k :: 0 <= k < |s| ==> s[k] in names
    ensures forall k :: 0 <= k < |SortIds(s)| ==> SortIds(s)[k] in names
  {
    var r := SortIds(s);
    forall k | 0 <= k < |r| ensures r[k] in names {
      assert r[k] in multiset(s);
      var m :| 0 <= m < |s| && s[m] == r[k];
    }
  }

  /**
   * There is only one ascending arrangement of a multiset of ids, so any sort
   * with these comparators, stable or not, produces `SortIds`.
   */
  lemma {:induction false} SortedPermutationUnique(r1: seq<int>, r2: seq<int>)
    requires Sorted(r1) && Sorted(r2) && multiset(r1) == multiset(r2)
    ensures r1 == r2
  {
    assert |r1| == |r2| by {
      assert |multiset(r1)| == |multiset(r2)|;
    }
    if |r1| > 0 {
      SameHead(r1, r2);
      SortedPermutationUnique(r1[1..], r2[1..]);
      assert r1 == [r1[0]] + r1[1..];
      assert r2 == [r2[0]] + r2[1..];
    }
  }

  /** Two sorted arrangements of one multiset start alike and continue with arrangements of one multiset. */
  lemma SameHead(r1: seq<int>, r2: seq<int>)
    requires Sorted(r1) && Sorted(r2) && multiset(r1) == multiset(r2) && |r1| > 0 && |r2| > 0
    ensures r1[0] == r2[0]
    ensures Sorted(r1[1..]) && Sorted(r2[1..]) && multiset(r1[1..]) == multiset(r2[1..])
  {
    assert r1[0] in multiset(r2) && r2[0] in multiset(r1);
    HeadIsLeast(r1, r2[0]);
    HeadIsLeast(r2, r1[0]);
    MultisetTail(r1);
    MultisetTail(r2);
    SortedTail(r1);
    SortedTail(r2);
  }

  lemma SortedTail(r: seq<int>)
    requires Sorted(r) && |r| > 0
    ensures Sorted(r[1..])
  {
  }

  /** The head of a sorted list is at most any of its elements. */
  lemma HeadIsLeast(r: seq<int>, y: int)
    requires Sorted(r) && y in multiset(r)
    ensures |r| > 0 && r[0] <= y
  {
    var i :| 0 <= i < |r| && r[i] == y;
  }

  /** Dropping the head removes one copy of it. */
  lemma MultisetTail(r: seq<int>)
    requires |r| > 0
    ensures multiset(r[1..]) == multiset(r) - multiset{r[0]}
  {
    assert r == [r[0]] + r[1..];
  }
}
