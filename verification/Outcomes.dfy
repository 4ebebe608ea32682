/** What becomes of a case, told from its fields alone: when each copy of the gate chain
    clears an action, what every verdict does to the case, and what a turn, an opening and
    the call button leave behind. */
module Outcomes {
  import opened Domain
  import opened Policies
  import opened Proposals
  import opened Ledger
  import opened Gates
  import opened Workflow
  import opened Sessions

  // ------------------------------------------------------------ the sandbox

  /** Contact is allowed: between 9:00 and 20:00 on the Indian wall clock. */
  predicate Daytime(t: Instant) { 32_400 <= t % 86_400 < 72_000 }

  lemma QuietHoursAreTheNight(t: Instant)
    ensures QuietHours(t) <==> !Daytime(t)
  {
  }

  const MONEY_ACTIONS: set<Action> := {Action.GeneratePaymentLink, Action.GenerateQrCode, Action.OfferPartialPlan,
                                       Action.RetryCharge, Action.OfferFeeWaiver}

  /** What the merchant's policy permits: the action and the channel are listed, the discount
      is within its cap, an action that moves money within the ceiling, and a payment in part
      is allowed and meets the minimum of the bill, or of a ceiling below it, to half of a
      hundredth of a percent. */
  predicate Permits(policy: Policy, action: Action, channel: Option<Channel>, discount: Option<real>, amount: int,
                    bill: int) {
    && action in policy.actions && (channel.Some? ==> channel.value in policy.channels)
    && (discount.Some? ==> discount.value <= policy.maxDiscountPct)
    && (action in MONEY_ACTIONS && policy.maxAmount.Some? ==> amount <= policy.maxAmount.value)
    && (amount < bill || action == Action.OfferPartialPlan ==>
          && policy.allowPartial
          && (bill > 0 ==>
                var base := if policy.maxAmount.Some? && 0 < policy.maxAmount.value < bill then policy.maxAmount.value else bill;
                20000 * amount >= (200 * policy.minPartialPct - 1) * base))
  }

  /** The sandbox approves what a gate asks for exactly when the policy permits it. */
  lemma SandboxApprovesExactlyWhen(tool: Tool, request: Option<int>, discount: Option<real>, bill: nat, policy: Policy)
    requires Valid(policy) && Resolve(tool).0.Some?
    ensures Validate(policy, GateProposal(tool, request, bill, discount)) == Approved
       <==> Permits(policy, Resolve(tool).0.value, Resolve(tool).1, discount, request.GetOr(bill), bill)
  {
    if bill > 0 {
      MinimumPctExactly(request.GetOr(bill), PartialBase(bill, policy.maxAmount), policy.minPartialPct);
    }
  }

  /** The tools that reach a channel, each with its action. */
  const CHANNEL_TOOLS: set<(Tool, Action, Channel)> := {
    (Tool.SendWhatsApp, Action.SendWhatsApp, WhatsApp), (Tool.VoiceCall, Action.VoiceCall, Voice),
    (Tool.GeneratePaymentLink, Action.GeneratePaymentLink, PaymentLink),
    (Tool.GenerateQrCode, Action.GenerateQrCode, PaymentLink),
    (Tool.OfferPartialPlan, Action.OfferPartialPlan, PaymentLink),
    (Tool.OfferFeeWaiver, Action.OfferFeeWaiver, WhatsApp)}

  /** A tool is cleared for a channel exactly by day, with a call left if it is a call, and
      within the policy. */
  lemma ChannelIsClearedExactlyWhen(c: Case, tool: Tool, action: Action, channel: Channel, request: Option<int>,
                                    discount: Option<real>, days: Option<int>, attempts: int, clock: Instant, policy: Policy)
    requires Valid(policy) && (tool, action, channel) in CHANNEL_TOOLS
    ensures var d := GateDecision(c, tool, request, discount, days, attempts, clock, policy);
      && (d.allowed <==> Daytime(clock) && (tool == Tool.VoiceCall ==> attempts < 2)
                         && Permits(policy, action, Some(channel), discount, request.GetOr(c.bill), c.bill))
      && (d.allowed ==> d == Decision(tool, Some(action), Some(channel), None, true, None, Some(request.GetOr(c.bill)), days))
  {
    SandboxApprovesExactlyWhen(tool, request, discount, c.bill, policy);
  }

  /** A retry is granted at any hour, exactly below the case's own limit and within the
      policy. */
  lemma RetryIsGrantedExactlyWhen(c: Case, request: Option<int>, discount: Option<real>, days: Option<int>, attempts: int,
                                  clock: Instant, policy: Policy)
    requires Valid(policy)
    ensures GateDecision(c, ScheduleRetry, request, discount, days, attempts, clock, policy).allowed
       <==> c.retryCount < c.maxRetries
            && Permits(policy, RetryCharge, None, discount, request.GetOr(c.bill), c.bill)
  {
    SandboxApprovesExactlyWhen(ScheduleRetry, request, discount, c.bill, policy);
  }

  /** The playbooks with what each hands to a channel. */
  const PLAYBOOK_ACTIONS: set<(Playbook, Action, Option<Channel>)> := {
    (RerouteRail, Action.GeneratePaymentLink, Some(PaymentLink)), (PreauthLink, Action.GeneratePaymentLink, Some(PaymentLink)),
    (UpiAutopayNudge, Action.SendWhatsApp, Some(WhatsApp)), (Negotiation, Action.OfferFeeWaiver, Some(WhatsApp)),
    (SalaryCycleSequencer, Action.RetryCharge, None), (MandateRefresh, Action.VoiceCall, Some(Voice)),
    (P2pTracker, Action.SendWhatsApp, Some(WhatsApp))}

  /** The workflow's verdict on a playbook's action: it waits for the day if it needs a channel,
      is halted after three retries if it charges and after two calls if it calls, is blocked
      by the policy, and else cleared. */
  lemma PlaybookVerdictIs(playbook: Playbook, action: Action, channel: Option<Channel>, bill: nat, retries: int,
                          attempts: int, discount: Option<real>, clock: Instant, policy: Policy)
    requires Valid(policy) && (playbook, action, channel) in PLAYBOOK_ACTIONS
    ensures ExecuteGate(playbook, bill, retries, attempts, discount, clock, policy)
         == if channel.Some? && !Daytime(clock) then Halted(TraiQuietHours)
            else if action == RetryCharge && retries >= 3 then Halted(RbiMaxRetries)
            else if action == Action.VoiceCall && attempts >= 2 then Halted(VoiceAttemptCap)
            else if !Permits(policy, action, channel, discount, bill, bill) then Blocked
            else Cleared
  {
  }

  // --------------------------------------------------- what a verdict leaves

  /** Escalated with one more ticket, and finished. */
  function ToAPerson(c: Case): Case {
    c.(state := Escalated, tickets := c.tickets + 1, terminal := true,
       audit := c.audit + [AuditRow(ExecuteIntervention, Escalation, None, None, None, None)])
  }

  /** Cancelled, on a rule or at the agent's word, and finished. */
  function Ended(c: Case, rule: Option<StoppingRule>): Case {
    c.(state := Cancelled, terminal := true,
       audit := c.audit + [AuditRow(ExecuteIntervention, StateTransition, None, None, rule, None)])
  }

  /** Waiting, with the session still open. */
  function Delayed(c: Case, rule: Option<StoppingRule>): Case {
    c.(state := Waiting, audit := c.audit + [AuditRow(ExecuteIntervention, RetryScheduled, None, None, rule, None)])
  }

  /** Intervening, with one dispatch on the channel. */
  function Sent(c: Case, action: Action, channel: Channel): Case {
    c.(state := Intervening,
       audit := c.audit + [AuditRow(ExecuteIntervention, InterventionDispatch, Some(action), Some(channel), None, None)])
  }

  /** A request for a person opens one ticket and ends escalated; a stop opens none and
      ends cancelled; and neither asks any gate. */
  lemma HandoffAndStopOutcomes(c: Case, request: Option<int>, discount: Option<real>, days: Option<int>, attempts: int,
                               clock: Instant, policy: Policy, env: MintEnv)
    requires Valid(policy)
    ensures Enact(c, GateDecision(c, HandoffToHuman, request, discount, days, attempts, clock, policy), env, clock)
         == ToAPerson(c)
    ensures Enact(c, GateDecision(c, Stop, request, discount, days, attempts, clock, policy), env, clock) == Ended(c, None)
    ensures GateDecision(c, HandoffToHuman, request, discount, days, attempts, clock, policy).allowed
    ensures GateDecision(c, Stop, request, discount, days, attempts, clock, policy).allowed
  {
  }

  /** A retry: cancelled at the case's own limit, handed to a person when the policy
      forbids it, and else waiting. */
  lemma RetryOutcome(c: Case, request: Option<int>, discount: Option<real>, days: Option<int>, attempts: int,
                     clock: Instant, policy: Policy, env: MintEnv)
    requires Valid(policy)
    ensures Enact(c, GateDecision(c, ScheduleRetry, request, discount, days, attempts, clock, policy), env, clock)
         == if c.retryCount >= c.maxRetries then Ended(c, Some(RbiMaxRetries))
            else if Permits(policy, RetryCharge, None, discount, request.GetOr(c.bill), c.bill) then Delayed(c, None)
            else ToAPerson(c)
  {
    RetryIsGrantedExactlyWhen(c, request, discount, days, attempts, clock, policy);
  }

  lemma RefusalOutcome(c: Case, tool: Tool, rule: StoppingRule, env: MintEnv, clock: Instant)
    ensures Enact(c, Denied(tool, Waiting, rule), env, clock) == Delayed(c, Some(rule))
    ensures Enact(c, Denied(tool, Cancelled, rule), env, clock) == Ended(c, Some(rule))
    ensures Enact(c, Decision(HandoffToHuman, None, None, Some(Escalated), false, None, None, None), env, clock)
         == ToAPerson(c)
  {
  }

  lemma ClearanceOutcome(c: Case, d: Decision, action: Action, channel: Channel, env: MintEnv, clock: Instant)
    requires d.allowed && d.terminalState.None? && d.action == Some(action) && d.channel == Some(channel)
    requires channel == PaymentLink <==> action in {Action.GeneratePaymentLink, Action.GenerateQrCode, Action.OfferPartialPlan}
    ensures Enact(c, d, env, clock)
         == if channel != PaymentLink then Sent(c, action, channel)
            else if CancelCrashes(c.artifacts, env.cancelRaises) then c
            else Sent(MintFor(c, d, env, clock), action, channel)
  {
  }

  lemma ChannelDecision(c: Case, tool: Tool, action: Action, channel: Channel, request: Option<int>, discount: Option<real>,
                        days: Option<int>, attempts: int, clock: Instant, policy: Policy)
    requires Valid(policy) && (tool, action, channel) in CHANNEL_TOOLS
    ensures GateDecision(c, tool, request, discount, days, attempts, clock, policy)
         == if !Daytime(clock) then Denied(tool, Waiting, TraiQuietHours)
            else if tool == Tool.VoiceCall && attempts >= 2 then Denied(tool, Cancelled, VoiceAttemptCap)
            else if !Permits(policy, action, Some(channel), discount, request.GetOr(c.bill), c.bill) then
              Decision(HandoffToHuman, None, None, Some(Escalated), false, None, None, None)
            else Decision(tool, Some(action), Some(channel), None, true, None, Some(request.GetOr(c.bill)), days)
  {
    SandboxApprovesExactlyWhen(tool, request, discount, c.bill, policy);
  }

  /** A tool for a channel that is turned away: the case waits in quiet hours, is cancelled
      when the tool is a call and two were made, and is handed to a person when the policy
      forbids it. */
  lemma ChannelRefusalOutcome(c: Case, tool: Tool, action: Action, channel: Channel, request: Option<int>,
                              discount: Option<real>, days: Option<int>, attempts: int, clock: Instant, policy: Policy,
                              env: MintEnv)
    requires Valid(policy) && (tool, action, channel) in CHANNEL_TOOLS
    requires !GateDecision(c, tool, request, discount, days, attempts, clock, policy).allowed
    ensures Enact(c, GateDecision(c, tool, request, discount, days, attempts, clock, policy), env, clock)
         == if !Daytime(clock) then Delayed(c, Some(TraiQuietHours))
            else if tool == Tool.VoiceCall && attempts >= 2 then Ended(c, Some(VoiceAttemptCap))
            else ToAPerson(c)
  {
    ChannelDecision(c, tool, action, channel, request, discount, days, attempts, clock, policy);
    RefusalOutcome(c, tool, if Daytime(clock) then VoiceAttemptCap else TraiQuietHours, env, clock);
  }

  /** One that is cleared is sent; a payment tool mints first, and a mint that crashes leaves
      the case as it was. */
  lemma ChannelClearanceOutcome(c: Case, tool: Tool, action: Action, channel: Channel, request: Option<int>,
                                discount: Option<real>, days: Option<int>, attempts: int, clock: Instant, policy: Policy,
                                env: MintEnv)
    requires Valid(policy) && (tool, action, channel) in CHANNEL_TOOLS
    requires GateDecision(c, tool, request, discount, days, attempts, clock, policy).allowed
    ensures var d := GateDecision(c, tool, request, discount, days, attempts, clock, policy);
      Enact(c, d, env, clock)
      == if channel != PaymentLink then Sent(c, action, channel)
         else if env.cancelRaises
                 && exists i :: 0 <= i < |c.artifacts| && c.artifacts[i].status == Created && c.artifacts[i].providerId != None
         then c
         else Sent(MintFor(c, d, env, clock), action, channel)
  {
    ChannelDecision(c, tool, action, channel, request, discount, days, attempts, clock, policy);
    ClearanceOutcome(c, GateDecision(c, tool, request, discount, days, attempts, clock, policy), action, channel, env, clock);
  }

  // ------------------------------------------------------------ entry points

  /** The tool a turn goes on with: a nudge turns into a call after three of them, while a
      call is left and the policy permits calls. */
  function Routed(c: Case, tool: Tool, policy: Policy): Tool {
    if tool == Tool.SendWhatsApp && Nudges(c) >= 3 && VoiceAttempts(c) < 2
      && Voice in policy.channels && Action.VoiceCall in policy.actions
    then Tool.VoiceCall else tool
  }

  /** A row counts as a call when it is a dispatch on the voice channel, and as a nudge when it is
      one on WhatsApp; no other row counts as either. */
  lemma WhatCountsAsACallOrANudge(c: Case, row: AuditRow)
    ensures var d, sent := c.(audit := c.audit + [row]), row.actionType == InterventionDispatch;
      && VoiceAttempts(d) == VoiceAttempts(c) + (if sent && row.channel == Some(Voice) then 1 else 0)
      && Nudges(d) == Nudges(c) + (if sent && row.channel == Some(WhatsApp) then 1 else 0)
    ensures c.audit == [] ==> VoiceAttempts(c) == Nudges(c) == 0
  {
    CountOneMore(c.audit, row, IsVoiceDispatch);
    CountOneMore(c.audit, row, IsNudge);
  }

  /** The days of a turn, between one and ninety. */
  function BoundedDays(days: Option<int>): Option<int> {
    match days
    case None => None
    case Some(n) => Some(MaxInt(1, MinInt(n, 90)))
  }

  /** The amount of a turn in paise, between one and the bill, where the tool carries one. */
  function BoundedAmount(tool: Tool, paise: Option<int>, bill: int): Option<int> {
    if paise.Some? && tool in {Tool.OfferPartialPlan, Tool.GeneratePaymentLink, Tool.GenerateQrCode}
    then Some(MaxInt(1, MinInt(paise.value, bill))) else None
  }

  lemma ATurnIsOneDecision(c: Case, p: Payload, paise: Option<int>, clock: Instant, policy: Policy)
    requires Valid(policy) && c.bill >= 1
    requires p.amountInr == match paise case None => None case Some(n) => Some(n as real / 100.0)
    ensures var tool := Routed(c, p.tool, policy);
      Decide(c, p, clock, policy)
      == GateDecision(c, tool, BoundedAmount(tool, paise, c.bill), p.discountPct, BoundedDays(p.deadlineDays),
                      VoiceAttempts(c), clock, policy)
  {
    var tool := Routed(c, p.tool, policy);
    if paise.Some? {
      ClampWhole(paise.value, c.bill);
    }
    assert Redirected(p.tool, Nudges(c), VoiceAttempts(c), policy) == tool;
    assert Request(tool, p.amountInr, c.bill) == BoundedAmount(tool, paise, c.bill);
    assert ClampDeadline(p.deadlineDays) == BoundedDays(p.deadlineDays);
  }

  /** A turn with no discount, its amount a whole number of paise, does what a client does
      who names the tool it is routed to, with the amount and the days brought within
      bounds: one gate chain for both. */
  lemma ATurnIsAToolCall(c: Case, p: Payload, paise: Option<int>, clock: Instant, policy: Policy, env: MintEnv)
    requires Valid(policy) && !c.terminal && c.bill >= 1 && p.discountPct.None?
    requires p.amountInr == match paise case None => None case Some(n) => Some(n as real / 100.0)
    ensures var tool := Routed(c, p.tool, policy);
      Reply(c, Verdict(Continue, None), p, false, clock, policy, env)
      == ToolCall(c, tool, BoundedAmount(tool, paise, c.bill), BoundedDays(p.deadlineDays), clock, policy, env)
  {
    ATurnIsOneDecision(c, p, paise, clock, policy);
  }

  /** A discount is weighed like this. */
  lemma WaiverOutcome(c: Case, p: Payload, clock: Instant, policy: Policy, env: MintEnv)
    requires Valid(policy) && !c.terminal && p.tool == Tool.OfferFeeWaiver
    ensures Reply(c, Verdict(Continue, None), p, false, clock, policy, env)
         == if !Daytime(clock) then Delayed(c, Some(TraiQuietHours))
            else if Permits(policy, Action.OfferFeeWaiver, Some(WhatsApp), p.discountPct, c.bill, c.bill)
            then Sent(c, Action.OfferFeeWaiver, WhatsApp) else ToAPerson(c)
  {
    var d := Decide(c, p, clock, policy);
    var days, calls := ClampDeadline(p.deadlineDays), VoiceAttempts(c);
    ChannelIsClearedExactlyWhen(c, p.tool, Action.OfferFeeWaiver, WhatsApp, None, p.discountPct, days, calls, clock, policy);
    if d.allowed {
      ChannelClearanceOutcome(c, p.tool, Action.OfferFeeWaiver, WhatsApp, None, p.discountPct, days, calls, clock, policy, env);
    } else {
      ChannelRefusalOutcome(c, p.tool, Action.OfferFeeWaiver, WhatsApp, None, p.discountPct, days, calls, clock, policy, env);
    }
  }

  /** A booked reminder adds one row to a turn, and a finished session takes none. */
  lemma ReminderAndFinishedSession(c: Case, v: Verdict, p: Payload, clock: Instant, policy: Policy, env: MintEnv)
    requires Valid(policy)
    ensures var plain, reminded := Reply(c, v, p, false, clock, policy, env), Reply(c, v, p, true, clock, policy, env);
      && (c.terminal ==> plain == c && reminded == c)
      && (!c.terminal && v.disposition.Continue? ==>
            reminded == plain.(audit := plain.audit + [AuditRow(Ingest, StateTransition, None, None, None, None)]))
  {
  }

  /** A new session answers again, in whatever state the last one ended. */
  lemma ANewSessionAnswers(c: Case, p: Payload, clock: Instant, policy: Policy, env: MintEnv)
    requires Valid(policy) && p.tool == HandoffToHuman
    ensures Step(Step(c, NewSession), Message(Verdict(Continue, None), p, false, clock, policy, env)) == ToAPerson(c)
  {
  }

  /** A reply that is read as a stop finishes the session: cancelled without a ticket when
      it ends the case, escalated with one when it wants a person; nothing is sent. */
  lemma StoppedReplyOutcome(c: Case, v: Verdict, p: Payload, reminded: bool, clock: Instant, policy: Policy, env: MintEnv)
    requires Valid(policy) && !c.terminal && !v.disposition.Continue?
    ensures var stopped := c.(terminal := true, audit := c.audit + [AuditRow(Ingest, StateTransition, None, None, v.rule, None)]);
      Reply(c, v, p, reminded, clock, policy, env)
      == if v.disposition.Terminate? then stopped.(state := Cancelled)
         else stopped.(state := Escalated, tickets := c.tickets + 1)
  {
  }

  /** The tool a session opens with: a link for class 1, a retry for 3, a nudge for 2 and 4. */
  function OpeningTool(o: Case, policy: Policy): Tool {
    if o.failureClass == 1 then Tool.GeneratePaymentLink
    else if o.failureClass == 3 then ScheduleRetry
    else Routed(o, Tool.SendWhatsApp, policy)
  }

  lemma OpeningDecision(o: Case, clock: Instant, policy: Policy)
    requires Valid(policy) && o.bill >= 1
    ensures Decide(o, OpeningPayload(o.failureClass), clock, policy)
         == ToolDecision(o, OpeningTool(o, policy), None, None, clock, policy)
  {
    ATurnIsOneDecision(o, OpeningPayload(o.failureClass), None, clock, policy);
  }

  /** The opening of a session does what a client would who names that tool. */
  lemma AnOpeningIsAToolCall(c: Case, clock: Instant, policy: Policy, env: MintEnv)
    requires Valid(policy) && c.bill >= 1
    ensures var o := c.(state := Diagnosing,
                        audit := c.audit + [AuditRow(Ingest, StateTransition, None, None, None, None)]
                                 + [AuditRow(Diagnose, StateTransition, None, None, None, None)]);
      Opening(c, clock, policy, env) == ToolCall(o, OpeningTool(o, policy), None, None, clock, policy, env)
  {
    OpeningDecision(Opened(c), clock, policy);
  }

  /** The call button adds one row, and to the calls exactly one when it clears the call: by
      day, below the retry limit, with a call left and within the policy. */
  lemma CallButtonOutcome(c: Case, clock: Instant, policy: Policy)
    requires Valid(policy)
    ensures var cap := if c.maxRetries == 0 then 3 else c.maxRetries;
      var cleared := Daytime(clock) && c.retryCount < cap && VoiceAttempts(c) < 2
                     && Permits(policy, Action.VoiceCall, Some(Voice), None, c.bill, c.bill);
      var d := StartCall(c, clock, policy);
      && VoiceAttempts(d) == VoiceAttempts(c) + (if cleared then 1 else 0)
      && (cleared ==> d == Sent(c, Action.VoiceCall, Voice).(state := c.state))
      && (!Daytime(clock) ==> d == Delayed(c, Some(TraiQuietHours)).(state := c.state))
      && (Daytime(clock) && c.retryCount >= cap ==>
            d == Ended(c, Some(RbiMaxRetries)).(state := c.state, terminal := c.terminal))
      && (Daytime(clock) && c.retryCount < cap && VoiceAttempts(c) >= 2 ==>
            d == Ended(c, Some(VoiceAttemptCap)).(state := c.state, terminal := c.terminal))
      && (Daytime(clock) && c.retryCount < cap && VoiceAttempts(c) < 2 && !cleared ==>
            d == c.(tickets := c.tickets + 1,
                    audit := c.audit + [AuditRow(ExecuteIntervention, Escalation, Some(Action.VoiceCall), Some(Voice), None, None)]))
  {
    PlaybookVerdictIs(MandateRefresh, Action.VoiceCall, Some(Voice), c.bill, 0, 0, None, clock, policy);
    var d := StartCall(c, clock, policy);
    CountOneMore(c.audit, d.audit[|c.audit|], IsVoiceDispatch);
    assert d.audit == c.audit + [d.audit[|c.audit|]];
  }

  // ---------------------------------------------------------------- the graph

  /** What the execute step leaves of a case, for a verdict of its gates. */
  function AfterExecution(c: Case, action: Action, channel: Option<Channel>, outcome: Outcome, event: Option<string>): Case {
    match outcome
    case Halted(rule) =>
      if rule == TraiQuietHours then Delayed(c, Some(rule)) else Ended(c, Some(rule)).(terminal := c.terminal)
    case Blocked =>
      c.(state := Escalated, tickets := c.tickets + 1,
         audit := c.audit + [AuditRow(ExecuteIntervention, StateTransition, None, None, None, None)])
    case Raised => c.(state := Intervening)
    case Cleared =>
      c.(state := if event in {Some("payment.captured"), Some("payment.authorized")} then Recovered else Intervening,
         audit := c.audit + [AuditRow(ExecuteIntervention, InterventionDispatch, Some(action), channel, None, None)]
                  + [AuditRow(NodeName.Reconcile, StateTransition, None, None, None, None)])
  }

  /** The case a run begins the execute step with. */
  function Prepared(c: Case, playbook: Playbook): Case {
    var d := c.(state := Diagnosing,
                audit := c.audit + [AuditRow(Ingest, StateTransition, None, None, None, None)]
                         + [AuditRow(Diagnose, StateTransition, None, None, None, None)]);
    if playbook == SalaryCycleSequencer then
      d.(state := Waiting, audit := d.audit + [AuditRow(Wait, RetryScheduled, None, None, None, None)])
    else d
  }

  /** The execute step alone. */
  lemma ActedOn(c: Case, playbook: Playbook, action: Action, channel: Option<Channel>, outcome: Outcome)
    requires (playbook, action, channel) in PLAYBOOK_ACTIONS
    ensures ActOn(c, playbook, outcome).0
         == if outcome.Cleared? then
              c.(state := Intervening,
                 audit := c.audit + [AuditRow(ExecuteIntervention, InterventionDispatch, Some(action), channel, None, None)])
            else AfterExecution(c, action, channel, outcome, None)
    ensures ActOn(c, playbook, outcome).1.None? <==> outcome.Cleared?
  {
  }

  /** The execute step and, after a dispatch, the reconcile step. */
  function Concluded(c: Case, playbook: Playbook, outcome: Outcome, event: Option<string>): Case {
    var acted := ActOn(c, playbook, outcome).0;
    if outcome.Cleared? then ReconcileNode(acted, event).0 else acted
  }

  lemma ConcludedAsExecuted(c: Case, playbook: Playbook, action: Action, channel: Option<Channel>, outcome: Outcome,
                            event: Option<string>)
    requires (playbook, action, channel) in PLAYBOOK_ACTIONS
    ensures Concluded(c, playbook, outcome, event) == AfterExecution(c, action, channel, outcome, event)
  {
    ActedOn(c, playbook, action, channel, outcome);
  }

  lemma ExecutionLeadsOn(s: GraphState, g: GraphInput) returns (t: GraphState)
    requires Valid(g.policy)
    ensures RunFrom(Some(ExecuteIntervention), s, g)
         == RunFrom(Next(ExecuteIntervention, t.disposition, g.playbook), t, g)
    ensures (t.c, t.disposition) == (ActOn(s.c, g.playbook, GraphGate(s.c, g)).0, ActOn(s.c, g.playbook, GraphGate(s.c, g)).1)
  {
    t := Visit(ExecuteIntervention, s, g);
    OneStep(ExecuteIntervention, s, g);
  }

  lemma ReconciliationEnds(t: GraphState, g: GraphInput)
    requires Valid(g.policy)
    ensures RunFrom(Some(NodeName.Reconcile), t, g).c == ReconcileNode(t.c, g.event).0
  {
    OneStep(NodeName.Reconcile, t, g);
    NoStep(Visit(NodeName.Reconcile, t, g), g);
  }

  lemma ActingGoesOnWhenCleared(c: Case, playbook: Playbook, outcome: Outcome)
    ensures ActOn(c, playbook, outcome).1.None? <==> outcome.Cleared?
  {
  }

  lemma ExecutionEndsTheRun(s: GraphState, g: GraphInput)
    requires Valid(g.policy)
    ensures RunFrom(Some(ExecuteIntervention), s, g).c == Concluded(s.c, g.playbook, GraphGate(s.c, g), g.event)
  {
    var t := ExecutionLeadsOn(s, g);
    ActingGoesOnWhenCleared(s.c, g.playbook, GraphGate(s.c, g));
    if t.disposition.None? {
      ReconciliationEnds(t, g);
    } else {
      NoStep(t, g);
    }
  }

  lemma PreparationLeadsToExecution(c: Case, g: GraphInput) returns (s: GraphState)
    requires Valid(g.policy) && g.verdict.disposition.Continue?
    ensures s.c == Prepared(c, g.playbook) && RunGraph(c, g) == RunFrom(Some(ExecuteIntervention), s, g)
  {
    var start := GraphState(c, None, [], []);
    s := Visit(Ingest, start, g);
    OneStep(Ingest, start, g);
    OneStep(Diagnose, s, g);
    s := Visit(Diagnose, s, g);
    if g.playbook == SalaryCycleSequencer {
      OneStep(Wait, s, g);
      s := Visit(Wait, s, g);
    }
  }

  /** The whole case after a graph run: a stopping message leaves two rows, and for a person
      one ticket; any other run leaves the rows of its nodes, the state its gates and the
      settlement event decide, and a ticket exactly when the policy blocked it. */
  lemma GraphOutcome(c: Case, g: GraphInput, action: Action, channel: Option<Channel>)
    requires Valid(g.policy) && (g.playbook, action, channel) in PLAYBOOK_ACTIONS
    ensures var stopped := c.(audit := c.audit + [AuditRow(Ingest, StateTransition, None, None, None, None)]
                                       + [AuditRow(Ingest, StateTransition, None, None, g.verdict.rule, None)]);
      RunGraph(c, g).c
      == match g.verdict.disposition
         case Terminate => stopped.(state := Cancelled)
         case Escalate => stopped.(state := Escalated, tickets := c.tickets + 1)
         case Continue =>
           var p := Prepared(c, g.playbook);
           AfterExecution(p, action, channel, GraphGate(p, g), g.event)
  {
    if g.verdict.disposition.Continue? {
      var s := PreparationLeadsToExecution(c, g);
      ExecutionEndsTheRun(s, g);
      ConcludedAsExecuted(s.c, g.playbook, action, channel, GraphGate(s.c, g), g.event);
    } else {
      var start := GraphState(c, None, [], []);
      OneStep(Ingest, start, g);
      NoStep(Visit(Ingest, start, g), g);
    }
  }

  /** The message lets the run on, it is day if a channel is needed, fewer than three retries or
      two calls were made where it is one, the policy permits the full bill with the discount,
      and the channel takes it. */
  predicate LetThrough(c: Case, g: GraphInput, action: Action, channel: Option<Channel>) {
    var calls := match g.seededVoice case Some(n) => n case None => Count(c.audit, IsVoiceDispatch);
    && g.verdict.disposition.Continue? && !g.dispatchRaises && (channel.Some? ==> Daytime(g.clock))
    && (action == RetryCharge ==> c.retryCount < 3) && (action == Action.VoiceCall ==> calls < 2)
    && Permits(g.policy, action, channel, g.discount, c.bill, c.bill)
  }

  /** A run dispatches exactly when everything lets it through, and then its playbook's own
      action on the playbook's own channel. */
  lemma DispatchesExactlyWhenLetThrough(c: Case, g: GraphInput, action: Action, channel: Option<Channel>)
    requires Valid(g.policy) && (g.playbook, action, channel) in PLAYBOOK_ACTIONS
    ensures Dispatches(c, g) <==> LetThrough(c, g, action, channel)
    ensures DispatchOf(g.playbook) == AuditRow(ExecuteIntervention, InterventionDispatch, Some(action), channel, None, None)
  {
    PlaybookVerdictIs(g.playbook, action, channel, c.bill, c.retryCount, g.seededVoice.GetOr(VoiceAttempts(c)), g.discount,
                      g.clock, g.policy);
  }
}
