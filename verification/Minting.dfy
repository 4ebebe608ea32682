/** What a granted payment tool mints, and from when on a plan is due. */
module Minting {
  import opened Domain
  import opened Policies
  import opened Ledger
  import opened Gates
  import opened Sessions
  import opened Outcomes

  /** A payment tool that a client names is cleared, and its mint does not crash. */
  predicate Issues(c: Case, tool: Tool, action: Action, request: Option<int>, days: Option<int>, clock: Instant,
                   policy: Policy, env: MintEnv)
    requires Valid(policy)
  {
    && (tool, action, PaymentLink) in CHANNEL_TOOLS
    && ToolDecision(c, tool, request, days, clock, policy).allowed
    && !(env.cancelRaises
         && exists i :: 0 <= i < |c.artifacts| && c.artifacts[i].status == Created && c.artifacts[i].providerId != None)
  }

  /** The amount on the artifact: the one asked for, where none or zero means the bill. */
  function FaceValue(bill: int, request: Option<int>): int {
    if request in {None, Some(0)} then bill else request.value
  }

  /** A code for a QR tool or a mandate, a payment-app link for an abandoned checkout. */
  function Form(tool: Tool, failureClass: int): ArtifactKind {
    match tool
    case GenerateQrCode => Qr
    case _ => match failureClass case 2 => UpiLink case 3 => Qr case _ => Link
  }

  lemma IssuedCase(c: Case, tool: Tool, action: Action, request: Option<int>, days: Option<int>, clock: Instant,
                   policy: Policy, env: MintEnv)
    requires Valid(policy) && Issues(c, tool, action, request, days, clock, policy, env)
    ensures ToolCall(c, tool, request, days, clock, policy, env)
         == Sent(MintFor(c, ToolDecision(c, tool, request, days, clock, policy), env, clock), action, PaymentLink)
    ensures ToolDecision(c, tool, request, days, clock, policy)
         == Decision(tool, Some(action), Some(PaymentLink), None, true, None, Some(request.GetOr(c.bill)), days)
  {
    ChannelIsClearedExactlyWhen(c, tool, action, PaymentLink, request, None, days, VoiceAttempts(c), clock, policy);
    ChannelClearanceOutcome(c, tool, action, PaymentLink, request, None, days, VoiceAttempts(c), clock, policy, env);
  }

  /** One artifact is added, for the amount asked for and paid nothing yet; what was awaiting
      a first payment is superseded, and every other artifact is as it was; a plan books
      what the bill leaves. */
  lemma WhatIsIssued(c: Case, tool: Tool, action: Action, request: Option<int>, days: Option<int>, clock: Instant,
                     policy: Policy, env: MintEnv)
    requires Valid(policy) && Issues(c, tool, action, request, days, clock, policy, env)
    ensures var d, n := ToolCall(c, tool, request, days, clock, policy, env), |c.artifacts|;
      var amount := FaceValue(c.bill, request);
      var plan := amount < c.bill || tool == Tool.OfferPartialPlan;
      && |d.artifacts| == n + 1
      && (forall i :: 0 <= i < n ==>
            d.artifacts[i]
            == if c.artifacts[i].status == Created then c.artifacts[i].(status := Closed) else c.artifacts[i])
      && d.artifacts[n] == Artifact(Form(tool, c.failureClass), env.providerId, amount, plan, if plan then Some(amount) else None,
                                    d.artifacts[n].deadline, Created, 0, None)
      && (d.artifacts[n].deadline.Some? <==> plan) && d.state == Intervening
      && d.paymentLinkId == env.providerId
      && d.balanceDue == (if plan then Some(if amount < c.bill then c.bill - amount else 0) else c.balanceDue)
      && d.balanceDeadline == (if plan then d.artifacts[n].deadline else c.balanceDeadline)
  {
    IssuedCase(c, tool, action, request, days, clock, policy, env);
  }

  /** A plan is due in a case that is not closed when it can be paid, its deadline has come, and
      nothing was written about it yet. */
  lemma DueExactlyWhen(c: Case, now: Instant, i: nat)
    requires i < |c.artifacts|
    ensures var a := c.artifacts[i];
      i in DueNow(c, now)
      <==> && c.state in {Pending, Diagnosing, Waiting, Intervening} && a.status in {Created, PartiallyPaid}
           && a.acceptPartial && a.followedUpAt == None && a.deadline != None && a.deadline.value <= now
  {
  }

  /** A plan is due exactly from its deadline on: so many days of 86400 seconds after it was
      minted, or the demo's seconds where they are set. A link over the bill never is. */
  lemma IssuedPlanIsDueExactlyFrom(c: Case, tool: Tool, action: Action, request: Option<int>, days: Option<int>,
                                   clock: Instant, policy: Policy, env: MintEnv, now: Instant)
    requires Valid(policy) && Issues(c, tool, action, request, days, clock, policy, env)
    ensures var wait := if env.demoSeconds > 0 then env.demoSeconds
                        else 86_400 * if days in {None, Some(0)} then env.defaultDays else days.value;
      |c.artifacts| in DueNow(ToolCall(c, tool, request, days, clock, policy, env), now)
      <==> (FaceValue(c.bill, request) < c.bill || tool == Tool.OfferPartialPlan) && now >= clock + wait
  {
    IssuedCase(c, tool, action, request, days, clock, policy, env);
  }

  /** Of the earlier plans exactly those stay in the sweep that were partly paid, overdue and
      not yet written about. */
  lemma EarlierPlansDueAfterIssue(c: Case, tool: Tool, action: Action, request: Option<int>, days: Option<int>,
                                  clock: Instant, policy: Policy, env: MintEnv, now: Instant, i: nat)
    requires Valid(policy) && Issues(c, tool, action, request, days, clock, policy, env) && i < |c.artifacts|
    ensures i in DueNow(ToolCall(c, tool, request, days, clock, policy, env), now)
       <==> && c.artifacts[i].status == PartiallyPaid && c.artifacts[i].acceptPartial && c.artifacts[i].followedUpAt == None
            && c.artifacts[i].deadline != None && c.artifacts[i].deadline.value <= now
  {
    WhatIsIssued(c, tool, action, request, days, clock, policy, env);
    DueExactlyWhen(ToolCall(c, tool, request, days, clock, policy, env), now, i);
  }
}
