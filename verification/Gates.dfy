/** The gate chain in the three places the engine keeps it: the tool gate, the
    workflow's execute step, and the operator's call button. */
module Gates {
  import opened Domain
  import opened Policies
  import opened Proposals
  import opened Ledger

  /** What a caller learns about a proposal. On approval `amount` is the amount the
      gate weighed. */
  datatype Decision = Decision(
    tool: Tool,
    action: Option<Action>,
    channel: Option<Channel>,
    terminalState: Option<LifecycleState>,
    allowed: bool,
    rule: Option<StoppingRule>,
    amount: Option<int>,
    deadlineDays: Option<int>
  )

  function Denied(tool: Tool, state: LifecycleState, rule: StoppingRule): Decision {
    Decision(tool, Resolve(tool).0, Resolve(tool).1, Some(state), false, Some(rule), None, None)
  }

  /** The deterministic gates around one named tool. */
  function GateDecision(c: Case, tool: Tool, request: Option<int>, discount: Option<real>, deadlineDays: Option<int>,
                        attempts: int, clock: Instant, policy: Policy): Decision
    requires Valid(policy)
  {
    var (action, channel, state) := Resolve(tool);
    if tool == HandoffToHuman || tool == Stop then Decision(tool, None, None, state, true, None, None, None)
    else if channel.Some? && QuietHours(clock) then Denied(tool, Waiting, TraiQuietHours)
    else if action == Some(RetryCharge) && RetryCapExceeded(c.retryCount, c.maxRetries) then
      Denied(tool, Cancelled, RbiMaxRetries)
    else if channel == Some(Voice) && VoiceAttemptsExhausted(attempts) then
      Denied(tool, Cancelled, VoiceAttemptCap)
    else if Validate(policy, GateProposal(tool, request, c.bill, discount)) != Approved then
      Decision(HandoffToHuman, None, None, Some(Escalated), false, None, None, None)
    else
      Decision(tool, action, channel, state, true, None, Some(request.GetOr(c.bill)), deadlineDays)
  }

  /** The audit row that goes with a state a gate leaves a case in. */
  function GateRow(d: Decision): AuditRow
    requires d.terminalState.Some?
  {
    var kind := match d.terminalState.value
      case Waiting => RetryScheduled
      case Escalated => Escalation
      case _ => StateTransition;
    AuditRow(ExecuteIntervention, kind, None, None, d.rule, None)
  }

  /** Commit a decision: a state, its audit row, and a ticket for a person. */
  function GateEffect(c: Case, d: Decision): Case {
    if d.terminalState.None? then c
    else
      var ticket := if d.terminalState.value.Escalated? then 1 else 0;
      Moved(c.(tickets := c.tickets + ticket), d.terminalState.value, GateRow(d))
  }

  /** After three nudges a further one becomes a call, when the policy allows calls and
      one is left. */
  function Redirected(tool: Tool, nudges: int, attempts: int, policy: Policy): Tool {
    if tool == Tool.SendWhatsApp && NudgesExhausted(nudges) && !VoiceAttemptsExhausted(attempts)
      && Voice in policy.channels && Action.VoiceCall in policy.actions
    then Tool.VoiceCall
    else tool
  }

  /** A model's payload, after its tool name was coerced into the closed set. */
  datatype Payload = Payload(tool: Tool, amountInr: Option<real>, deadlineDays: Option<int>, discountPct: Option<real>)

  /** Redirect, clamp, and run the gate: one decision per turn. */
  function Decide(c: Case, p: Payload, clock: Instant, policy: Policy): Decision
    requires Valid(policy)
  {
    var attempts := VoiceAttempts(c);
    var tool := Redirected(p.tool, Nudges(c), attempts, policy);
    GateDecision(c, tool, Request(tool, p.amountInr, c.bill), p.discountPct, ClampDeadline(p.deadlineDays),
             attempts, clock, policy)
  }

  // --------------------------------------------------- the second copy

  /** How the workflow words a playbook for the sandbox. */
  function PlaybookProposal(playbook: Playbook, bill: int, discount: Option<real>): Proposal {
    Proposal(PlaybookAction(playbook).0, PlaybookAction(playbook).1, discount, Some(bill), None, false)
  }

  /** What comes of a copy of the chain: a rule, a policy block, a dispatch, or one that was
      cleared and then raised. */
  datatype Outcome = Halted(rule: StoppingRule) | Blocked | Cleared | Raised

  function ExecuteGate(playbook: Playbook, bill: int, retries: int, attempts: int, discount: Option<real>,
                       clock: Instant, policy: Policy): Outcome
    requires Valid(policy)
  {
    var (action, channel) := PlaybookAction(playbook);
    if channel.Some? && QuietHours(clock) then Halted(TraiQuietHours)
    else if action == RetryCharge && RetryCapExceeded(retries, RBI_MAX_RETRIES) then Halted(RbiMaxRetries)
    else if channel == Some(Voice) && VoiceAttemptsExhausted(attempts) then Halted(VoiceAttemptCap)
    else if Validate(policy, PlaybookProposal(playbook, bill, discount)) != Approved then Blocked
    else Cleared
  }

  // ---------------------------------------------------- the third copy

  /** The operator's call button. A missing or zero retry limit reads as three. */
  function CallGate(c: Case, clock: Instant, policy: Policy): Outcome
    requires Valid(policy)
  {
    var cap := if c.maxRetries == 0 then RBI_MAX_RETRIES else c.maxRetries;
    if QuietHours(clock) then Halted(TraiQuietHours)
    else if RetryCapExceeded(c.retryCount, cap) then Halted(RbiMaxRetries)
    else if VoiceAttemptsExhausted(VoiceAttempts(c)) then Halted(VoiceAttemptCap)
    else if Validate(policy, PlaybookProposal(MandateRefresh, c.bill, None)) != Approved then Blocked
    else Cleared
  }

  // -------------------------------------------------------- agreement

  /** The verdict a decision carries, in the words of the other two copies. */
  function OutcomeOf(d: Decision): Outcome {
    if d.rule.Some? then Halted(d.rule.value) else if d.allowed then Cleared else Blocked
  }

  /** For a proposal of the full bill the workflow and the tool gate give one verdict
      and one stopping rule exactly when the case's own retry limit, which only the
      tool gate reads, does not tell them apart. */
  lemma ExecuteAgreesWithGate(c: Case, playbook: Playbook, attempts: int, discount: Option<real>,
                              clock: Instant, policy: Policy)
    requires Valid(policy)
    ensures ExecuteGate(playbook, c.bill, c.retryCount, attempts, discount, clock, policy)
         == OutcomeOf(GateDecision(c, ToolForPlaybook(playbook), None, discount, None, attempts, clock, policy))
       <==> (playbook.SalaryCycleSequencer?
             ==> (RetryCapExceeded(c.retryCount, c.maxRetries) <==> RetryCapExceeded(c.retryCount, RBI_MAX_RETRIES)))
  {
    var tool := ToolForPlaybook(playbook);
    FullAmountSameRuling(tool, playbook, c.bill, discount, policy);
  }

  /** Leaving the total out of the proposal changes nothing for the full bill. */
  lemma FullAmountSameRuling(tool: Tool, playbook: Playbook, bill: int, discount: Option<real>, policy: Policy)
    requires Valid(policy) && tool == ToolForPlaybook(playbook)
    ensures Validate(policy, GateProposal(tool, None, bill, discount))
         == Validate(policy, PlaybookProposal(playbook, bill, discount))
  {
    assert !Partial(GateProposal(tool, None, bill, discount));
    assert !Partial(PlaybookProposal(playbook, bill, discount));
  }

  /** Whatever the call button approves the tool gate approves as a call, and the only
      calls it turns away on its own are those of a case whose retries are spent. */
  lemma CallButtonIsStricter(c: Case, clock: Instant, policy: Policy)
    requires Valid(policy)
    ensures var gate := GateDecision(c, Tool.VoiceCall, None, None, None, VoiceAttempts(c), clock, policy);
            var cap := if c.maxRetries == 0 then RBI_MAX_RETRIES else c.maxRetries;
            CallGate(c, clock, policy) == Cleared <==> gate.allowed && !RetryCapExceeded(c.retryCount, cap)
  {
    FullAmountSameRuling(Tool.VoiceCall, MandateRefresh, c.bill, None, policy);
  }

  /** A channel is approved exactly when every gate passed, and approval alone changes
      nothing. */
  lemma ApprovalMeansEveryGatePassed(c: Case, tool: Tool, request: Option<int>, discount: Option<real>,
                                     deadlineDays: Option<int>, attempts: int, clock: Instant, policy: Policy)
    requires Valid(policy) && Resolve(tool).1.Some?
    ensures var d := GateDecision(c, tool, request, discount, deadlineDays, attempts, clock, policy);
      && (d.allowed <==>
            && !QuietHours(clock)
            && (tool == Tool.VoiceCall ==> !VoiceAttemptsExhausted(attempts))
            && Validate(policy, GateProposal(tool, request, c.bill, discount)) == Approved)
      && (d.allowed ==>
            && GateEffect(c, d) == c && d.tool == tool
            && (d.action, d.channel) == (Resolve(tool).0, Resolve(tool).1)
            && d.amount == Some(request.GetOr(c.bill)))
      && (!d.allowed ==> d.terminalState.Some? && d.terminalState.value in {Waiting, Cancelled, Escalated})
  {
  }

  /** A nudge is redirected only to a call that can go through: from there on nothing
      but quiet hours or an excessive discount refuses it. */
  lemma RedirectedCallIsRefusedOnlyByClockOrDiscount(c: Case, p: Payload, clock: Instant, policy: Policy)
    requires Valid(policy) && p.tool == Tool.SendWhatsApp
    requires Redirected(p.tool, Nudges(c), VoiceAttempts(c), policy) != p.tool
    ensures var d := Decide(c, p, clock, policy);
      && Nudges(c) >= WHATSAPP_NUDGE_CAP
      && (d.allowed <==> !QuietHours(clock) && !(p.discountPct.Some? && p.discountPct.value > policy.maxDiscountPct))
      && (d.allowed ==> d.tool == Tool.VoiceCall && d.channel == Some(Voice))
      && d.rule in {None, Some(TraiQuietHours)}
  {
    assert !Partial(GateProposal(Tool.VoiceCall, None, c.bill, p.discountPct));
  }

  /** What a gate writes is never a dispatch and never a follow-up, and it never touches
      money or artifacts. */
  lemma GateWritesNoDispatch(c: Case, d: Decision, p: AuditRow -> bool)
    requires forall r: AuditRow :: p(r) ==> IsDispatch(r)
    ensures Count(GateEffect(c, d).audit, p) == Count(c.audit, p)
    ensures GateEffect(c, d).artifacts == c.artifacts && GateEffect(c, d).bill == c.bill
    ensures GateEffect(c, d).balanceDue == c.balanceDue && GateEffect(c, d).terminal == c.terminal
  {
    if d.terminalState.Some? {
      CountOneMore(c.audit, GateRow(d), p);
    }
  }

  /** A link or QR that is minted for what the gate weighed stays under the ceiling.
      The mint reads an amount of zero as no amount, so a request of zero, which only a
      policy without a minimum lets through, is the one that escapes it. */
  function MintedAmount(d: Decision, bill: int): int {
    if d.amount.Some? && d.amount.value != 0 then d.amount.value else bill
  }

  /** The minted amount is the gated one exactly when the request is not zero, or the
      bill is; and it stays under a ceiling exactly when the request is not zero, or the
      bill stays under it. */
  lemma MintedAmountIsTheGatedOne(c: Case, tool: Tool, request: Option<int>, discount: Option<real>, attempts: int,
                                  clock: Instant, policy: Policy)
    requires Valid(policy) && PaymentTool(tool)
    requires GateDecision(c, tool, request, discount, None, attempts, clock, policy).allowed
    ensures var minted := MintedAmount(GateDecision(c, tool, request, discount, None, attempts, clock, policy), c.bill);
      && (minted == request.GetOr(c.bill) <==> request != Some(0) || c.bill == 0)
      && (policy.maxAmount.Some? ==>
            (minted <= policy.maxAmount.value <==> request != Some(0) || c.bill <= policy.maxAmount.value))
      && (policy.minPartialPct >= 1 && request == Some(0) ==> c.bill == 0)
  {
    if request == Some(0) && c.bill > 0 {
      MinimumPctExactly(0, PartialBase(c.bill, policy.maxAmount), policy.minPartialPct);
      ZeroShare(PartialBase(c.bill, policy.maxAmount), policy.minPartialPct);
    }
  }

  lemma ZeroShare(base: int, pct: int)
    requires base > 0
    ensures 0 < (200 * pct - 1) * base <==> pct >= 1
  {
  }

  /** What is minted is at least one paisa exactly when the request is not negative: a zero
      is read as the bill, and a client's own number is not clamped. */
  lemma MintedIsAtLeastAPaisaExactlyWhen(c: Case, tool: Tool, request: Option<int>, discount: Option<real>, attempts: int,
                                         clock: Instant, policy: Policy)
    requires Valid(policy) && PaymentTool(tool) && c.bill >= 1
    requires GateDecision(c, tool, request, discount, None, attempts, clock, policy).allowed
    ensures var minted := MintedAmount(GateDecision(c, tool, request, discount, None, attempts, clock, policy), c.bill);
      minted >= 1 <==> request.GetOr(0) >= 0
  {
  }

  /** A request of zero or less is approved exactly when everything else is in order, the
      policy has no minimum, and it is no more than a twenty-thousandth of the base below
      zero, which the percentage test rounds away. */
  lemma RequestBelowAPaisaIsApprovedExactlyWhen(c: Case, tool: Tool, request: int, discount: Option<real>, attempts: int,
                                                clock: Instant, policy: Policy)
    requires Valid(policy) && PaymentTool(tool) && c.bill >= 1 && request <= 0 && policy.minPartialPct >= 0
    ensures GateDecision(c, tool, Some(request), discount, None, attempts, clock, policy).allowed
       <==> && !QuietHours(clock) && Resolve(tool).0.value in policy.actions && PaymentLink in policy.channels
            && policy.allowPartial && !DiscountTooHigh(GateProposal(tool, Some(request), c.bill, discount), policy.maxDiscountPct)
            && policy.minPartialPct == 0 && -20000 * request <= PartialBase(c.bill, policy.maxAmount)
  {
    var pct, base := policy.minPartialPct, PartialBase(c.bill, policy.maxAmount);
    MinimumPctExactly(request, base, pct);
    ZeroShare(base, pct);
    if pct == 0 {
      assert (200 * pct - 1) * base == -base;
    }
  }

  lemma ZeroRequestEscapesTheCeiling()
    ensures var policy := Policy(0.0, Some(1_000_000), true, 0, {PaymentLink}, {Action.GeneratePaymentLink});
      var c := Case(2_000_000, 1, 0, 3, Intervening, None, None, None, [], [], 0, false);
      var d := GateDecision(c, Tool.GeneratePaymentLink, Some(0), None, None, 0, 12 * HOUR, policy);
      d.allowed && MintedAmount(d, c.bill) > policy.maxAmount.value
  {
    MinimumPctExactly(0, 1_000_000, 0);
  }
}
