/** The amount the proposer asks for, the bounds the decision layer puts on it,
    and the proof that the sandbox accepts what the proposer computes. Rupees are
    exact rationals; paise are integers. */
module Proposals {
  import opened Domain
  import opened Policies

  /** The tools that carry a requested amount. */
  predicate PaymentTool(t: Tool) {
    t == Tool.OfferPartialPlan || t == Tool.GeneratePaymentLink || t == Tool.GenerateQrCode
  }

  function MinReal(x: real, y: real): real { if x < y then x else y }

  function MaxReal(x: real, y: real): real { if x < y then y else x }

  function Inr(paise: int): real { paise as real / 100.0 }

  /** The policy minimum of a bill, in rupees. */
  function PlanInr(bill: int, minPct: int): real { Inr(bill) * minPct as real / 100.0 }

  /** The amount in rupees before the ceiling: the customer's offer, else the policy
      minimum for a plan. */
  function AskedInr(tool: Tool, bill: int, offer: Option<int>, minPct: int): Option<real> {
    if offer.Some? then Some(Inr(offer.value))
    else if tool == Tool.OfferPartialPlan then Some(PlanInr(bill, minPct))
    else None
  }

  /** A payment tool lowers an amount above the ceiling to the ceiling itself, if the policy
      takes partial payments. An amount of zero reads as no amount in this test. */
  function CutToCeiling(tool: Tool, bill: int, asked: Option<real>, policy: Policy): Option<real> {
    var weighed := if asked.Some? && asked.value != 0.0 then asked.value else Inr(bill);
    if PaymentTool(tool) && policy.maxAmount.Some? && policy.allowPartial
      && weighed * 100.0 > policy.maxAmount.value as real
    then Some(Inr(policy.maxAmount.value))
    else asked
  }

  function PartialInr(tool: Tool, bill: int, offer: Option<int>, policy: Policy): Option<real> {
    CutToCeiling(tool, bill, AskedInr(tool, bill, offer, policy.minPartialPct), policy)
  }

  /** Between one paisa and the bill, rounded to a whole paisa. */
  function ClampRequest(raw: Option<real>, bill: int): Option<int> {
    if raw.None? then None
    else Some(RoundHalfEven(MaxReal(0.01, MinReal(raw.value, Inr(bill))) * 100.0))
  }

  /** What the decision layer hands to the gate. */
  function Request(tool: Tool, raw: Option<real>, bill: int): Option<int> {
    if PaymentTool(tool) then ClampRequest(raw, bill) else None
  }

  function ClampDeadline(raw: Option<int>): Option<int> {
    if raw.None? then None else Some(if raw.value < 1 then 1 else if raw.value > 90 then 90 else raw.value)
  }

  /** How the gate words a tool for the sandbox. */
  function GateProposal(tool: Tool, request: Option<int>, bill: int, discount: Option<real>): Proposal
    requires Resolve(tool).0.Some?
  {
    var amount := request.GetOr(bill);
    Proposal(Resolve(tool).0.value, Resolve(tool).1, discount, Some(amount), Some(bill),
             amount < bill || tool == Tool.OfferPartialPlan)
  }

  /** The whole path from the judge's pick to the sandbox. */
  function JudgeRequest(tool: Tool, bill: int, offer: Option<int>, policy: Policy): Option<int> {
    Request(tool, PartialInr(tool, bill, offer, policy), bill)
  }

  // ------------------------------------------------ the first instalment

  lemma InstalmentRounding(bill: int, pct: int)
    ensures var a := RoundHalfEven((bill * pct) as real / 100.0);
            && bill * pct - 50 <= 100 * a <= bill * pct + 50
            && (100 * a == bill * pct - 50 || 100 * a == bill * pct + 50 ==> a % 2 == 0)
  {
    var x := (bill * pct) as real / 100.0;
    RoundHalfEvenNear(x);
    var a := RoundHalfEven(x);
    assert (100 * a) as real == 100.0 * a as real;
    assert (bill * pct) as real == 100.0 * x;
  }

  /** The one bill below ten thousand paise the bound allows, 9999: its only tie is
      at fifty percent, and that one rounds up. */
  lemma InstalmentOf9999(pct: int, a: int)
    requires 1 <= pct <= 100
    requires 9999 * pct - 50 <= 100 * a <= 9999 * pct + 50
    requires 100 * a == 9999 * pct - 50 || 100 * a == 9999 * pct + 50 ==> a % 2 == 0
    ensures 20000 * a >= (200 * pct - 1) * 9999
  {
    if 100 * a == 9999 * pct - 50 {
      assert false;
    }
  }

  lemma Products(bill: int, pct: int, base: int)
    requires 1 <= pct <= 100 && 0 <= base <= bill
    ensures bill <= bill * pct <= 100 * bill
    ensures base * pct + (bill - base) <= bill * pct
    ensures (200 * pct - 1) * base == 200 * (base * pct) - base
  {
    var slack := bill - base;
    assert bill * pct == base * pct + slack * pct;
    assert slack <= slack * pct;
  }

  lemma InstalmentMeetsMinimum(bill: int, pct: int, base: int)
    requires 1 <= pct <= 100 && 1 <= base <= bill && bill >= 9999
    ensures var a := RoundHalfEven((bill * pct) as real / 100.0);
            20000 * a >= (200 * pct - 1) * base && 1 <= a <= bill
  {
    InstalmentRounding(bill, pct);
    Products(bill, pct, base);
    var a := RoundHalfEven((bill * pct) as real / 100.0);
    if bill == 9999 {
      InstalmentOf9999(pct, a);
    }
  }

  lemma ClampPlain(x: real, bill: int, paise: real)
    requires x * 100.0 == paise && 1.0 <= paise <= bill as real
    ensures ClampRequest(Some(x), bill) == Some(RoundHalfEven(paise))
  {
  }

  lemma RoundWhole(n: int)
    ensures RoundHalfEven(n as real) == n
  {
  }

  lemma InstalmentInPaise(bill: int, pct: int)
    ensures PlanInr(bill, pct) * 100.0 == (bill * pct) as real / 100.0
  {
    assert (bill * pct) as real == bill as real * pct as real;
  }

  /** The first instalment in paise: the policy minimum of the bill, never less than one. */
  function Instalment(bill: int, pct: int): int { RoundHalfEven(MaxReal(1.0, (bill * pct) as real / 100.0)) }

  /** The minimum of the bill is asked for, not the ceiling and not the bill. */
  predicate AsksForTheMinimum(tool: Tool, bill: int, policy: Policy) {
    && tool == Tool.OfferPartialPlan && policy.minPartialPct > 0
    && (bill * policy.minPartialPct) as real / 100.0 <= policy.maxAmount.GetOr(bill) as real
  }

  /** The paise a payment tool asks for when the customer named no amount. */
  function Unasked(tool: Tool, bill: int, policy: Policy): int {
    var pct, ceiling := policy.minPartialPct, policy.maxAmount.GetOr(bill);
    if AsksForTheMinimum(tool, bill, policy) then Instalment(bill, pct)
    else if bill > ceiling then ceiling
    else if tool == Tool.OfferPartialPlan && pct == 0 then 1
    else bill
  }

  lemma PlanBounds(bill: int, pct: int)
    requires bill >= 1 && 1 <= pct <= 100
    ensures 0.0 < (bill * pct) as real / 100.0 <= bill as real
    ensures bill >= 100 ==> (bill * pct) as real / 100.0 >= 1.0
  {
    Products(bill, pct, 0);
  }

  lemma InstalmentIsClamped(bill: int, pct: int)
    requires bill >= 1 && 1 <= pct <= 100
    ensures ClampRequest(Some(PlanInr(bill, pct)), bill) == Some(Instalment(bill, pct))
  {
    InstalmentInPaise(bill, pct);
    PlanBounds(bill, pct);
  }

  lemma UnaskedPlan(bill: int, policy: Policy)
    requires policy.allowPartial && 1 <= policy.minPartialPct <= 100
    requires bill >= 1 && (policy.maxAmount.Some? ==> policy.maxAmount.value >= 1)
    ensures JudgeRequest(Tool.OfferPartialPlan, bill, None, policy).GetOr(bill)
         == Unasked(Tool.OfferPartialPlan, bill, policy)
  {
    var pct := policy.minPartialPct;
    var x := PlanInr(bill, pct);
    InstalmentInPaise(bill, pct);
    PlanBounds(bill, pct);
    if policy.maxAmount.Some? && x * 100.0 > policy.maxAmount.value as real {
      RoundWhole(policy.maxAmount.value);
      ClampPlain(Inr(policy.maxAmount.value), bill, policy.maxAmount.value as real);
    } else {
      InstalmentIsClamped(bill, pct);
    }
  }

  lemma UnaskedOther(tool: Tool, bill: int, policy: Policy)
    requires PaymentTool(tool) && policy.allowPartial
    requires tool == Tool.OfferPartialPlan ==> policy.minPartialPct == 0
    requires bill >= 1 && (policy.maxAmount.Some? ==> policy.maxAmount.value >= 1)
    ensures JudgeRequest(tool, bill, None, policy).GetOr(bill) == Unasked(tool, bill, policy)
  {
    assert Inr(bill) * 100.0 == bill as real;
    RoundWhole(1);
    if policy.maxAmount.Some? && bill > policy.maxAmount.value {
      RoundWhole(policy.maxAmount.value);
      ClampPlain(Inr(policy.maxAmount.value), bill, policy.maxAmount.value as real);
    } else if tool == Tool.OfferPartialPlan {
      assert PlanInr(bill, 0) == 0.0;
    }
  }

  /** How far the instalment falls short of the exact minimum of `base`, times a hundred. */
  function Shortfall(bill: int, pct: int, base: int): int { base * pct - 100 * Instalment(bill, pct) }

  lemma InstalmentFits(bill: int, pct: int, ceiling: int)
    requires bill >= 1 && 1 <= pct <= 100 && ceiling >= 1
    requires (bill * pct) as real / 100.0 <= ceiling as real
    ensures 1 <= Instalment(bill, pct) <= bill && Instalment(bill, pct) <= ceiling
  {
    var paise := MaxReal(1.0, (bill * pct) as real / 100.0);
    PlanBounds(bill, pct);
    RoundWhole(1);
    RoundWhole(bill);
    RoundWhole(ceiling);
    RoundHalfEvenMonotone(1.0, paise);
    RoundHalfEvenMonotone(paise, bill as real);
    RoundHalfEvenMonotone(paise, ceiling as real);
  }

  lemma ShortfallTest(a: int, pct: int, base: int)
    ensures 20000 * a < (200 * pct - 1) * base <==> 200 * (base * pct - 100 * a) > base
  {
    assert (200 * pct - 1) * base == 200 * (base * pct) - base;
  }

  /** The computed amount lies between one paisa and the bill, under the ceiling; and it
      meets the percentage unless it is an instalment too short for it. */
  lemma UnaskedAmounts(tool: Tool, bill: int, policy: Policy)
    requires 0 <= policy.minPartialPct <= 100 && PaymentTool(tool)
    requires bill >= 1 && (policy.maxAmount.Some? ==> policy.maxAmount.value >= 1)
    ensures var a, pct, base := Unasked(tool, bill, policy), policy.minPartialPct, PartialBase(bill, policy.maxAmount);
            && 1 <= a <= bill
            && (policy.maxAmount.Some? ==> a <= policy.maxAmount.value)
            && (20000 * a < (200 * pct - 1) * base <==>
                  AsksForTheMinimum(tool, bill, policy) && 200 * Shortfall(bill, pct, base) > base)
  {
    var pct, base := policy.minPartialPct, PartialBase(bill, policy.maxAmount);
    var a := Unasked(tool, bill, policy);
    ShortfallTest(a, pct, base);
    if AsksForTheMinimum(tool, bill, policy) {
      InstalmentFits(bill, pct, policy.maxAmount.GetOr(bill));
    } else if pct > 0 {
      PlanBounds(bill, pct);
      Products(base, pct, 0);
    } else {
      assert base * pct == 0;
    }
  }

  /** When the sandbox accepts what the proposer asks for, for every bill: exactly when the
      ceiling is not zero and an instalment at the policy minimum falls short of the exact
      minimum by no more than a two-hundredth of a percent of its base. */
  lemma UnaskedRequestIsApprovedExactlyWhen(tool: Tool, bill: int, policy: Policy)
    requires PaymentTool(tool) && bill >= 1
    requires Valid(policy) && policy.allowPartial && 0 <= policy.minPartialPct <= 100
    requires Resolve(tool).0.value in policy.actions && PaymentLink in policy.channels
    ensures Validate(policy, GateProposal(tool, JudgeRequest(tool, bill, None, policy), bill, None)) == Approved
       <==> && policy.maxAmount != Some(0)
            && (AsksForTheMinimum(tool, bill, policy) ==>
                  var base := PartialBase(bill, policy.maxAmount);
                  200 * Shortfall(bill, policy.minPartialPct, base) <= base)
  {
    if policy.maxAmount == Some(0) {
      ZeroCeilingRefuses(tool, bill, policy);
    } else {
      if tool == Tool.OfferPartialPlan && policy.minPartialPct > 0 {
        UnaskedPlan(bill, policy);
      } else {
        UnaskedOther(tool, bill, policy);
      }
      UnaskedAmounts(tool, bill, policy);
      MinimumPctExactly(Unasked(tool, bill, policy), PartialBase(bill, policy.maxAmount), policy.minPartialPct);
    }
  }

  lemma ZeroCeilingRefuses(tool: Tool, bill: int, policy: Policy)
    requires PaymentTool(tool) && bill >= 1 && policy.maxAmount == Some(0)
    requires policy.allowPartial && policy.minPartialPct >= 0
    ensures Validate(policy, GateProposal(tool, JudgeRequest(tool, bill, None, policy), bill, None)) != Approved
  {
    assert PlanInr(bill, policy.minPartialPct) >= 0.0 by { InstalmentInPaise(bill, policy.minPartialPct); }
    assert Inr(0) == 0.0;
    RoundWhole(1);
  }

  /** From a bill of 9999 paise on, under any ceiling, every minimum is met. */
  lemma UnaskedRequestIsApproved(tool: Tool, bill: int, policy: Policy)
    requires PaymentTool(tool) && bill >= 9999
    requires Valid(policy) && policy.allowPartial && 0 <= policy.minPartialPct <= 100
    requires Resolve(tool).0.value in policy.actions && PaymentLink in policy.channels
    requires policy.maxAmount != Some(0)
    ensures Validate(policy, GateProposal(tool, JudgeRequest(tool, bill, None, policy), bill, None)) == Approved
  {
    UnaskedRequestIsApprovedExactlyWhen(tool, bill, policy);
    if AsksForTheMinimum(tool, bill, policy) {
      var base := PartialBase(bill, policy.maxAmount);
      PlanBounds(bill, policy.minPartialPct);
      InstalmentMeetsMinimum(bill, policy.minPartialPct, base);
      ShortfallTest(Instalment(bill, policy.minPartialPct), policy.minPartialPct, base);
    }
  }

  /** Below that, without a ceiling, the digits of the bill decide: a plan is accepted
      exactly when its minimum rounds up to a paisa, or what rounding drops of it is no more
      than a two-hundredth of a percent of the bill. */
  lemma UnaskedPlanIsApprovedExactlyWhen(bill: int, policy: Policy)
    requires bill >= 100 && policy.maxAmount.None?
    requires policy.allowPartial && 1 <= policy.minPartialPct <= 100
    requires Action.OfferPartialPlan in policy.actions && PaymentLink in policy.channels
    ensures var request := JudgeRequest(Tool.OfferPartialPlan, bill, None, policy);
      var whole, dropped := bill * policy.minPartialPct / 100, bill * policy.minPartialPct % 100;
      Validate(policy, GateProposal(Tool.OfferPartialPlan, request, bill, None)) == Approved
      <==> dropped > 50 || (dropped == 50 && whole % 2 == 1) || 200 * dropped <= bill
  {
    var pct := policy.minPartialPct;
    UnaskedRequestIsApprovedExactlyWhen(Tool.OfferPartialPlan, bill, policy);
    PlanBounds(bill, pct);
    HundredthsRound(bill * pct);
  }

  lemma HundredthsRound(n: int)
    requires n >= 0
    ensures RoundHalfEven(n as real / 100.0)
         == n / 100 + if n % 100 > 50 || (n % 100 == 50 && n / 100 % 2 == 1) then 1 else 0
  {
    var whole, rest := n / 100, n % 100;
    assert n as real / 100.0 == whole as real + rest as real / 100.0;
    assert (n as real / 100.0).Floor == whole;
  }

  /** The bound is the least one: at 9998 paise a plan at seventy-five percent is refused. */
  lemma UnaskedRequestRefusedAt9998()
    ensures var policy := Policy(0.0, None, true, 75, {PaymentLink}, {Action.OfferPartialPlan});
            && JudgeRequest(Tool.OfferPartialPlan, 9998, None, policy) == Some(7498)
            && Validate(policy, GateProposal(Tool.OfferPartialPlan, Some(7498), 9998, None)) == BelowMinimum
  {
    var policy := Policy(0.0, None, true, 75, {PaymentLink}, {Action.OfferPartialPlan});
    UnaskedInPaise();
    MinimumPctExactly(7498, 9998, 75);
  }

  lemma UnaskedInPaise()
    ensures ClampRequest(Some(PlanInr(9998, 75)), 9998) == Some(7498)
  {
    var x := PlanInr(9998, 75);
    assert x * 100.0 == 7498.5;
    assert RoundHalfEven(7498.5) == 7498;
  }

  /** A whole number of paise is bounded by one paisa and the bill, and not rounded. */
  lemma ClampWhole(paise: int, bill: int)
    requires bill >= 1
    ensures ClampRequest(Some(paise as real / 100.0), bill)
         == Some(if paise > bill then bill else if paise < 1 then 1 else paise)
  {
    RoundWhole(1);
    RoundWhole(bill);
    RoundWhole(paise);
  }

  /** What is asked for when the customer names an amount: that amount, between one paisa and
      the bill, or the ceiling where a payment tool may cut it; an offer of nothing is
      weighed as the bill. */
  lemma AskedWithAnOffer(tool: Tool, bill: int, offer: int, policy: Policy)
    requires Valid(policy) && bill >= 1
    ensures var payment := tool in {Tool.OfferPartialPlan, Tool.GeneratePaymentLink, Tool.GenerateQrCode};
      var weighed := if offer == 0 then bill else offer;
      var asked := if policy.allowPartial && policy.maxAmount.Some? && weighed > policy.maxAmount.value
                   then policy.maxAmount.value else offer;
      JudgeRequest(tool, bill, Some(offer), policy)
      == if !payment then None else Some(if asked > bill then bill else if asked < 1 then 1 else asked)
  {
    assert Inr(offer) * 100.0 == offer as real && Inr(bill) * 100.0 == bill as real;
    ClampWhole(offer, bill);
    ClampWhole(policy.maxAmount.GetOr(offer), bill);
  }

  /** Whatever the customer offers, a tool that may ask for less never asks for more
      than the ceiling, nor for more than the bill, nor for nothing. */
  lemma RequestWithinCeiling(tool: Tool, bill: int, offer: Option<int>, policy: Policy)
    requires PaymentTool(tool) && policy.allowPartial && bill >= 1
    requires policy.maxAmount.Some? && policy.maxAmount.value >= 1
    requires policy.minPartialPct >= 0
    ensures 1 <= JudgeRequest(tool, bill, offer, policy).GetOr(bill)
    ensures JudgeRequest(tool, bill, offer, policy).GetOr(bill) <= bill
    ensures JudgeRequest(tool, bill, offer, policy).GetOr(bill) <= policy.maxAmount.value
  {
    var raw, ceiling := PartialInr(tool, bill, offer, policy), policy.maxAmount.value;
    if raw.Some? {
      var clamped := MaxReal(0.01, MinReal(raw.value, Inr(bill)));
      assert raw.value * 100.0 <= ceiling as real;
      RoundWhole(1);
      RoundWhole(bill);
      RoundWhole(ceiling);
      RoundHalfEvenMonotone(1.0, clamped * 100.0);
      RoundHalfEvenMonotone(clamped * 100.0, bill as real);
      RoundHalfEvenMonotone(clamped * 100.0, ceiling as real);
    } else {
      assert Inr(bill) * 100.0 == bill as real;
    }
  }
}
