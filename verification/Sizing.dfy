/** Two ways to size a stake by the wallet's equity: a ladder of doublings and a plain ratio. */
module Sizing {
  import opened Wrappers

  const MAX_DOUBLINGS: int := 8

  function Pow2(k: nat): (r: real)
    ensures r >= 1.0
  {
    if k == 0 then 1.0 else 2.0 * Pow2(k - 1)
  }

  /** The equity at which rung `k` is reached. */
  function Threshold(base: real, k: nat): (r: real)
    ensures r == base * Pow2(k)
  {
    if k == 0 then base else 2.0 * Threshold(base, k - 1)
  }

  /** The highest rung up to `top` the account has reached, looking down from the top. */
  function Rung(equity: real, base: real, top: nat): (k: nat)
    ensures k <= top
    ensures k > 0 ==> Threshold(base, k) <= equity
    ensures forall j | k < j <= top :: Threshold(base, j) > equity
  {
    if top == 0 then 0
    else if Threshold(base, top) <= equity then top
    else Rung(equity, base, top - 1)
  }

  lemma {:induction false} Pow2Grows(j: nat, k: nat)
    requires j <= k
    ensures Pow2(j) <= Pow2(k)
  {
    if j < k { Pow2Grows(j, k - 1); }
  }

  lemma {:induction false} ThresholdsGrow(base: real, j: nat, k: nat)
    requires base > 0.0 && j <= k
    ensures 0.0 < Threshold(base, j) <= Threshold(base, k)
  {
    if j < k {
      ThresholdsGrow(base, j, k - 1);
    } else if j > 0 {
      ThresholdsGrow(base, j - 1, j - 1);
    }
  }

  /** A rung that is reached, with the next one out of reach or past the top, is the highest one. */
  lemma {:induction false} StoppedAt(equity: real, base: real, k: nat, top: nat)
    requires base > 0.0 && k <= top
    requires k > 0 ==> Threshold(base, k) <= equity
    requires k == top || equity < Threshold(base, k + 1)
    ensures Rung(equity, base, top) == k
  {
    var r := Rung(equity, base, top);
    if k < r { ThresholdsGrow(base, k + 1, r); }
  }

  /** What the multiplier is, said without the loop. */
  function Multiplier(equity: Option<real>, base: real, maxDoublings: int): real {
    if equity.None? || base <= 0.0 || maxDoublings <= 0 then 1.0 else Pow2(Rung(equity.value, base, maxDoublings))
  }

  /** Climbing the thresholds from below stops at the highest rung there is. */
  method GrowthMultiplier(equity: Option<real>, base: real, maxDoublings: int := MAX_DOUBLINGS)
    returns (multiplier: real)
    ensures multiplier == Multiplier(equity, base, maxDoublings)
  {
    if equity.None? || base <= 0.0 {
      return 1.0;
    }
    if equity.value < base * 2.0 {
      if maxDoublings > 0 {
        assert Threshold(base, 1) == base * 2.0;
        StoppedAt(equity.value, base, 0, maxDoublings);
      }
      return 1.0;
    }
    multiplier := 1.0;
    var threshold := base * 2.0;
    var k: nat := 0;
    while k < maxDoublings
      invariant k == 0 || k <= maxDoublings
      invariant multiplier == Pow2(k) && threshold == Threshold(base, k + 1)
      invariant k > 0 ==> Threshold(base, k) <= equity.value
      invariant base > 0.0
    {
      if equity.value < threshold {
        break;
      }
      multiplier := multiplier * 2.0;
      threshold := threshold * 2.0;
      k := k + 1;
    }
    if maxDoublings > 0 { StoppedAt(equity.value, base, k, maxDoublings); }
  }

  /** More equity never means a smaller stake, and the ladder stays within its ceiling. */
  lemma {:induction false} LadderIsMonotone(poorer: real, richer: real, base: real, maxDoublings: nat)
    requires poorer <= richer
    ensures 1.0 <= Multiplier(Some(poorer), base, maxDoublings) <= Multiplier(Some(richer), base, maxDoublings) <=
            Pow2(maxDoublings)
  {
    if base > 0.0 && maxDoublings > 0 {
      var j, k := Rung(poorer, base, maxDoublings), Rung(richer, base, maxDoublings);
      assert j <= k;
      Pow2Grows(j, k);
      Pow2Grows(k, maxDoublings);
    }
  }

  function LinearMultiplier(equity: Option<real>, base: real, cap: real): real {
    if equity.None? || base <= 0.0 then 1.0
    else if equity.value <= 0.0 then 0.0
    else if equity.value / base <= cap then equity.value / base else cap
  }

  /** The proportion is the account over its base, never above the cap; one without figures, nothing once it is lost. */
  lemma {:induction false} ProportionIs(equity: real, base: real, cap: real)
    requires base > 0.0
    ensures LinearMultiplier(None, base, cap) == 1.0 && LinearMultiplier(Some(equity), 0.0, cap) == 1.0
    ensures var x := LinearMultiplier(Some(equity), base, cap);
            && (equity <= 0.0 ==> x == 0.0)
            && (equity > 0.0 ==> x <= cap && x * base <= equity && (x * base == equity || x == cap))
  {
    if equity > 0.0 {
      var ratio := equity / base;
      assert ratio * base == equity;
      Scaled(base, LinearMultiplier(Some(equity), base, cap), ratio);
    }
  }

  lemma {:induction false} Scaled(base: real, x: real, y: real)
    requires base > 0.0 && x <= y
    ensures x * base <= y * base
  {
  }

  /** Without figures, or below twice its base, an account stakes its base size. */
  lemma {:induction false} LadderStartsAtOne(equity: real, base: real, maxDoublings: int)
    ensures Multiplier(None, base, maxDoublings) == 1.0
    ensures base <= 0.0 || maxDoublings <= 0 || equity < 2.0 * base ==>
            Multiplier(Some(equity), base, maxDoublings) == 1.0
    ensures Pow2(0) == 1.0 && forall k: nat :: Pow2(k + 1) == 2.0 * Pow2(k)
  {
    if base > 0.0 && maxDoublings > 0 && equity < 2.0 * base {
      assert Threshold(base, 1) == 2.0 * base;
      StoppedAt(equity, base, 0, maxDoublings);
    }
  }

  /** Account `equity` covers two to the `k` base sizes, and no higher power of two up to the ceiling. */
  predicate Covers(equity: real, base: real, k: nat, top: int) {
    && k <= top
    && (k > 0 ==> base * Pow2(k) <= equity)
    && (k < top ==> equity < base * Pow2(k + 1))
  }

  /** The multiplier is the highest power of two, up to the ceiling, that the equity covers in base sizes. */
  lemma {:induction false} LadderIs(equity: real, base: real, top: int)
    requires base > 0.0 && top > 0
    ensures exists k: nat :: Covers(equity, base, k, top) && Multiplier(Some(equity), base, top) == Pow2(k)
  {
    var k := Rung(equity, base, top);
    assert k < top ==> equity < Threshold(base, k + 1);
    assert Covers(equity, base, k, top);
  }

  /** Below its ceiling the ladder brackets the proportion: it never stakes more, and never as little as half. */
  lemma {:induction false} LadderBracketsTheProportion(equity: real, base: real, maxDoublings: int)
    requires base > 0.0 && equity >= base
    ensures var ladder := Multiplier(Some(equity), base, maxDoublings);
            var linear := LinearMultiplier(Some(equity), base, equity / base);
            && linear == equity / base
            && ladder <= linear
            && (maxDoublings > 0 && Rung(equity, base, maxDoublings) < maxDoublings ==> linear < 2.0 * ladder)
  {
    var ratio := equity / base;
    if maxDoublings > 0 {
      var k := Rung(equity, base, maxDoublings);
      CompareToRatio(base, Pow2(k), equity);
      CompareToRatio(base, Pow2(k + 1), equity);
      assert k < maxDoublings ==> equity < Threshold(base, k + 1);
    } else {
      CompareToRatio(base, 1.0, equity);
    }
  }

  lemma {:induction false} CompareToRatio(base: real, x: real, equity: real)
    requires base > 0.0
    ensures base * x <= equity <==> x <= equity / base
  {
  }
}
