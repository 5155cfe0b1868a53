/**
 * Mutable boxes threaded through effect applications (`NumberHolder` and
 * `BooleanHolder` of the game's common utilities), and the per-Pokemon stack
 * ledger lookup that held items use to read their own stack count.
 */
module Common {

  /** The effect a held item declares it takes part in. */
  datatype HeldItemEffect = AccuracyBooster | FriendshipBooster | NatureWeightBooster | Berry

  /** A boxed number passed by reference through a chain of effects. */
  class NumberHolder {
    var value: real

    constructor (value: real)
      ensures this.value == value
    {
      this.value := value;
    }
  }

  /** A boxed flag passed by reference through a chain of effects. */
  class BooleanHolder {
    var value: bool

    constructor (value: bool)
      ensures this.value == value
    {
      this.value := value;
    }
  }

  /**
   * The stack count a Pokemon holds of one item: the held-item manager is not
   * part of this model, so its contents are a map from item id to count, and
   * an item it does not hold has count 0.
   */
  function GetStack(stacks: map<int, nat>, item: int): (r: nat)
    ensures item !in stacks ==> r == 0
    ensures item in stacks ==> r == stacks[item]
  {
    if item in stacks then stacks[item] else 0
  }

  /** True when `x` is a whole number. */
  predicate IsIntegral(x: real) {
    x == x.Floor as real
  }

  /** `Math.floor(v * m)`, computed exactly. */
  function FloorMul(v: real, m: real): (r: real)
    ensures IsIntegral(r) && r <= v * m < r + 1.0
    ensures m == 1.0 && IsIntegral(v) ==> r == v
    ensures 0.0 <= v && 1.0 <= m && IsIntegral(v) ==> v <= r
  {
    var x := v * m;
    if 0.0 <= v && 1.0 <= m && IsIntegral(v) then
      MulAtLeast(v, m);
      FloorAtLeast(x, v);
      x.Floor as real
    else if m == 1.0 then
      assert x == v;
      x.Floor as real
    else
      x.Floor as real
  }

  lemma MulAtLeast(v: real, m: real)
    requires 0.0 <= v && 1.0 <= m
    ensures v <= v * m
  {
    assert v * m - v == v * (m - 1.0);
    assert 0.0 <= v * (m - 1.0);
  }

  /** A whole number below `x` is below its floor too. */
  lemma FloorAtLeast(x: real, k: real)
    requires IsIntegral(k) && k <= x
    ensures k <= x.Floor as real
  {
  }

  /** `FloorMul` is exact when the product is already whole. */
  lemma FloorMulWhole(v: real, m: real)
    requires IsIntegral(v * m)
    ensures FloorMul(v, m) == v * m
  {
    var x := v * m;
    assert x.Floor as real == x;
  }

  /** For a non-negative value, a larger multiplier never gives a smaller `FloorMul`. */
  lemma FloorMulMonotone(v: real, m1: real, m2: real)
    requires 0.0 <= v && m1 <= m2
    ensures FloorMul(v, m1) <= FloorMul(v, m2)
  {
    var x1, x2 := v * m1, v * m2;
    assert x2 - x1 == v * (m2 - m1);
    assert 0.0 <= v * (m2 - m1);
    FloorAtLeast(x2, FloorMul(v, m1));
  }
}
