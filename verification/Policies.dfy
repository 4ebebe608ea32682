/** The model-free sandbox every proposed action must clear, and the exact
    meaning of its rounded percentage test. */
module Policies {
  import opened Domain

  /** Money is in paise; the discount is a percentage. */
  datatype Policy = Policy(
    maxDiscountPct: real,
    maxAmount: Option<int>,
    allowPartial: bool,
    minPartialPct: int,
    channels: set<Channel>,
    actions: set<Action>
  )

  datatype Proposal = Proposal(
    action: Action,
    channel: Option<Channel>,
    discountPct: Option<real>,
    amount: Option<int>,
    total: Option<int>,
    isPartial: bool
  )

  datatype Ruling =
    | Approved
    | ActionNotPermitted
    | ChannelNotPermitted
    | PartialNotPermitted
    | BelowMinimum
    | DiscountAboveCap
    | AmountAboveCeiling

  /** Rounding to the nearest integer, a tie going to the even neighbour. */
  function RoundHalfEven(x: real): int {
    var f := x.Floor;
    var rest := x - f as real;
    if rest < 0.5 || (rest == 0.5 && f % 2 == 0) then f else f + 1
  }

  predicate MoneyMoving(a: Action) {
    a in {Action.GeneratePaymentLink, Action.GenerateQrCode, Action.OfferPartialPlan,
          RetryCharge, Action.OfferFeeWaiver}
  }

  predicate Partial(p: Proposal) {
    || p.isPartial
    || p.action == Action.OfferPartialPlan
    || (p.total.Some? && p.amount.Some? && p.amount.value < p.total.value)
  }

  /** What the first payment is measured against. A ceiling of zero counts as none. */
  function PartialBase(total: int, maxAmount: Option<int>): int {
    if maxAmount.Some? && maxAmount.value != 0 && maxAmount.value < total then maxAmount.value else total
  }

  /** The share, rounded to two decimals, falls below the minimum. */
  predicate BelowMinimumPct(amount: int, base: int, minPct: int)
    requires base != 0
  {
    var pct := amount as real / base as real * 100.0;
    RoundHalfEven(pct * 100.0) as real / 100.0 < minPct as real
  }

  predicate AboveCeiling(p: Proposal, maxAmount: Option<int>) {
    MoneyMoving(p.action) && maxAmount.Some? && p.amount.Some? && p.amount.value > maxAmount.value
  }

  predicate DiscountTooHigh(p: Proposal, cap: real) {
    p.discountPct.Some? && p.discountPct.value > cap
  }

  /** A stored ceiling is never negative. */
  predicate Valid(policy: Policy) {
    policy.maxAmount.Some? ==> policy.maxAmount.value >= 0
  }

  function Validate(policy: Policy, p: Proposal): Ruling
    requires Valid(policy)
  {
    if p.action !in policy.actions then ActionNotPermitted
    else if p.channel.Some? && p.channel.value !in policy.channels then ChannelNotPermitted
    else if Partial(p) && !policy.allowPartial then PartialNotPermitted
    else if Partial(p) && p.total.Some? && p.amount.Some? && p.total.value > 0
         && BelowMinimumPct(p.amount.value, PartialBase(p.total.value, policy.maxAmount), policy.minPartialPct)
    then BelowMinimum
    else if DiscountTooHigh(p, policy.maxDiscountPct) then DiscountAboveCap
    else if AboveCeiling(p, policy.maxAmount) then AmountAboveCeiling
    else Approved
  }

  /** Rounding half to even stays within one half, with a tie never leaving an
      even neighbour: exactly what the percentage test and the proposer need. */
  lemma RoundHalfEvenNear(x: real)
    ensures var r := RoundHalfEven(x);
            && r as real - 0.5 <= x <= r as real + 0.5
            && (x == r as real - 0.5 || x == r as real + 0.5 ==> r % 2 == 0)
  {
    var f := x.Floor;
    assert f as real <= x < f as real + 1.0;
  }

  lemma RoundHalfEvenAtLeast(x: real, k: int)
    requires k % 2 == 0
    ensures RoundHalfEven(x) >= k <==> x >= k as real - 0.5
  {
    RoundHalfEvenNear(x);
    var r := RoundHalfEven(x);
    if r < k && x >= k as real - 0.5 {
      assert false;
    }
  }

  lemma RoundHalfEvenMonotone(x: real, y: real)
    requires x <= y
    ensures RoundHalfEven(x) <= RoundHalfEven(y)
  {
    RoundHalfEvenNear(x);
    RoundHalfEvenNear(y);
  }

  /** The test on the share, before and after multiplying out the division. */
  lemma ShareAgainstBound(a: real, b: real, bound: real)
    requires b > 0.0
    ensures a / b * 100.0 * 100.0 < bound <==> 10000.0 * a < bound * b
  {
    var q := a / b;
    assert q * b == a;
    var x := q * 100.0 * 100.0;
    assert x * b == 10000.0 * a;
    if x < bound {
      assert (bound - x) * b > 0.0;
    } else {
      assert (x - bound) * b >= 0.0;
    }
  }

  lemma DoubledBound(amount: int, base: int, minPct: int)
    ensures 10000.0 * amount as real < (100.0 * minPct as real - 0.5) * base as real
       <==> 20000 * amount < (200 * minPct - 1) * base
  {
    var lhs, rhs := 20000 * amount, (200 * minPct - 1) * base;
    var b, m := base as real, minPct as real;
    assert rhs as real == (200.0 * m - 1.0) * b;
    assert (200.0 * m - 1.0) * b == 2.0 * ((100.0 * m - 0.5) * b);
    assert lhs as real == 20000.0 * amount as real;
  }

  lemma MinimumPctAsShare(pct: real, minPct: int)
    ensures RoundHalfEven(pct * 100.0) as real / 100.0 < minPct as real
       <==> pct * 100.0 < 100.0 * minPct as real - 0.5
  {
    RoundHalfEvenAtLeast(pct * 100.0, 100 * minPct);
    assert (100 * minPct) as real == 100.0 * minPct as real;
    var r := RoundHalfEven(pct * 100.0);
    assert r as real / 100.0 < minPct as real <==> r < 100 * minPct;
  }

  /** The rounded comparison is exactly this integer inequality: the minimum is
      missed by at most half of a hundredth of a percent. */
  lemma MinimumPctExactly(amount: int, base: int, minPct: int)
    requires base > 0
    ensures BelowMinimumPct(amount, base, minPct) <==> 20000 * amount < (200 * minPct - 1) * base
  {
    var a, b := amount as real, base as real;
    MinimumPctAsShare(a / b * 100.0, minPct);
    ShareAgainstBound(a, b, 100.0 * minPct as real - 0.5);
    DoubledBound(amount, base, minPct);
  }
}
