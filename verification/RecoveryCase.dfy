/** The record the engine works on, updated in place: a transaction with its payment
    artifacts, its audit trail and its live session's flag. Every method is the
    matching step of the specification. */
module Recovery {
  import opened Domain
  import opened Policies
  import opened Proposals
  import opened Ledger
  import opened Gates
  import opened Workflow
  import opened Sessions
  import opened Runs
  import opened Polling

  /** The books, the newest-open rule, the follow-ups and the voice cap are kept. */
  ghost predicate KeepsSafe(c: Case, d: Case) {
    forall calls: nat :: Safe(c, calls) ==> Safe(d, calls)
  }

  lemma StepKeepsSafe(c: Case, e: Event)
    requires Admissible(e)
    ensures KeepsSafe(c, Sessions.Step(c, e))
  {
    forall calls: nat | Safe(c, calls)
      ensures Safe(Sessions.Step(c, e), calls)
    {
      StepKeepsBooks(c, e);
      StepKeepsChased(c, e);
      StepRespectsVoiceCap(c, e);
    }
  }

  class RecoveryCase {
    const bill: nat
    const failureClass: int
    var retryCount: int
    var maxRetries: int
    var state: LifecycleState
    var balanceDue: Option<int>
    var balanceDeadline: Option<Instant>
    var paymentLinkId: Option<string>
    var artifacts: seq<Artifact>
    var audit: seq<AuditRow>
    var tickets: nat
    var terminal: bool
    var started: bool
    var closed: bool

    ghost function View(): Case
      reads this
    {
      Case(bill, failureClass, retryCount, maxRetries, state, balanceDue, balanceDeadline, paymentLinkId,
           artifacts, audit, tickets, terminal)
    }

    constructor (bill: nat, failureClass: int, retryCount: int, maxRetries: int)
      ensures View() == Case(bill, failureClass, retryCount, maxRetries, Pending, None, None, None, [], [], 0, false)
      ensures !started && !closed
    {
      this.bill, this.failureClass, this.retryCount, this.maxRetries := bill, failureClass, retryCount, maxRetries;
      state, balanceDue, balanceDeadline, paymentLinkId := Pending, None, None, None;
      artifacts, audit, tickets, terminal, started, closed := [], [], 0, false, false, false;
    }

    // ------------------------------------------------------------ the audit

    method RecordAudit(row: AuditRow)
      modifies this`audit
      ensures View() == Logged(old(View()), row)
    {
      audit := audit + [row];
    }

    method SetState(next: LifecycleState, row: AuditRow)
      modifies this`state, this`audit
      ensures View() == Moved(old(View()), next, row)
    {
      state := next;
      RecordAudit(row);
    }

    method EnqueueEscalation()
      modifies this`tickets
      ensures View() == old(View()).(tickets := old(tickets) + 1)
    {
      tickets := tickets + 1;
    }

    /** How many audit rows of a kind there are. */
    method CountRows(p: AuditRow -> bool) returns (n: nat)
      ensures n == Count(audit, p)
    {
      n := 0;
      var k := 0;
      while k < |audit|
        invariant 0 <= k <= |audit|
        invariant n == Count(audit[..k], p)
      {
        CountOneMore(audit[..k], audit[k], p);
        assert audit[..k] + [audit[k]] == audit[..k + 1];
        if p(audit[k]) {
          n := n + 1;
        }
        k := k + 1;
      }
      assert audit[..k] == audit;
    }

    // ----------------------------------------------------------- the ledger

    /** Mint an artifact after closing the ones that still await payment. When cancelling
        a superseded link crashes, nothing was committed. */
    method Mint(kind: ArtifactKind, amount: int, partial: bool, deadline: Option<Instant>, providerId: Option<string>,
                cancelRaises: bool) returns (minted: bool)
      modifies this`artifacts, this`paymentLinkId, this`balanceDue, this`balanceDeadline
      ensures minted <==> !CancelCrashes(old(artifacts), cancelRaises)
      ensures minted ==> View() == Ledger.Mint(old(View()), kind, amount, partial, deadline, providerId)
      ensures !minted ==> View() == old(View())
    {
      var retired := artifacts;
      var k := 0;
      while k < |retired|
        invariant 0 <= k <= |retired| == |artifacts|
        invariant retired[..k] == CloseCreated(artifacts)[..k] && retired[k..] == artifacts[k..]
        invariant !CancelCrashes(artifacts[..k], cancelRaises)
      {
        if retired[k].status.Created? {
          if retired[k].providerId.Some? && cancelRaises {
            return false;
          }
          retired := retired[k := retired[k].(status := Closed)];
        }
        k := k + 1;
      }
      assert artifacts[..k] == artifacts && retired == CloseCreated(artifacts);
      artifacts := retired + [Minted(kind, amount, partial, deadline, providerId)];
      paymentLinkId := providerId;
      if partial {
        balanceDue := Some(MaxInt(bill - amount, 0));
        if deadline.Some? {
          balanceDeadline := deadline;
        }
      }
      return true;
    }

    /** Fold an artifact's payment into the balance and the lifecycle state. */
    method ApplyTransactionState(a: Artifact)
      modifies this`balanceDue, this`state
      ensures View() == Fold(old(View()), a)
    {
      var held := state.Escalated? || state.Cancelled?;
      if a.acceptPartial {
        var balance := MaxInt(bill - a.amountPaid, 0);
        balanceDue := Some(balance);
        if balance <= 0 {
          state := Recovered;
        } else if a.status.PartiallyPaid? && !held {
          state := Waiting;
        }
      } else if a.status.Paid? && !held {
        state := Recovered;
      }
    }

    method Reconcile(i: nat, answer: GatewayAnswer)
      requires i < |artifacts|
      modifies this`artifacts, this`balanceDue, this`state
      ensures View() == ReconcileArtifact(old(View()), i, answer)
    {
      if artifacts[i].providerId.None? {
        return;
      }
      var a := artifacts[i];
      if answer.status == Some("paid") {
        a := a.(status := Paid, amountPaid := a.amount);
      } else if answer.amountPaid.Some? && answer.amountPaid.value > 0 {
        a := a.(amountPaid := answer.amountPaid.value);
        a := a.(status := if a.amountPaid >= a.amount then Paid else PartiallyPaid);
      } else if answer.status == Some("expired") {
        a := a.(status := Expired);
      }
      artifacts := artifacts[i := a];
      ApplyTransactionState(a);
    }

    /** The demo's forced payment; refused for an artifact that is paid or expired. */
    method ForcePayment(i: nat) returns (accepted: bool)
      modifies this
      ensures accepted <==> i < |old(artifacts)| && CanSimulate(old(artifacts)[i])
      ensures View() == ForcePaid(old(View()), i)
      ensures KeepsSafe(old(View()), View())
    {
      StepKeepsSafe(View(), ForcedPayment(i));
      accepted := i < |artifacts| && !artifacts[i].status.Paid? && !artifacts[i].status.Expired?;
      if accepted {
        var a := artifacts[i].(status := Paid, amountPaid := artifacts[i].amount);
        artifacts := artifacts[i := a];
        ApplyTransactionState(a);
        AnnouncePayment(a);
      }
    }

    // ------------------------------------------------------------- the gates

    /** Defer or stop the case on a named rule. */
    method Deny(tool: Tool, next: LifecycleState, kind: ActionType, rule: StoppingRule) returns (d: Decision)
      requires (next, kind) == (Waiting, RetryScheduled) || (next, kind) == (Cancelled, StateTransition)
      modifies this`state, this`audit
      ensures d == Denied(tool, next, rule) && View() == GateEffect(old(View()), d)
    {
      SetState(next, AuditRow(ExecuteIntervention, kind, None, None, Some(rule), None));
      d := Decision(tool, Resolve(tool).0, Resolve(tool).1, Some(next), false, Some(rule), None, None);
    }

    /** Hand the case to a person, because the tool asked for it or the policy blocked. */
    method HandOff(requested: bool) returns (d: Decision)
      modifies this`state, this`audit, this`tickets
      ensures d == Decision(HandoffToHuman, None, None, Some(Escalated), requested, None, None, None)
      ensures View() == GateEffect(old(View()), d)
    {
      EnqueueEscalation();
      SetState(Escalated, AuditRow(ExecuteIntervention, Escalation, None, None, None, None));
      d := Decision(HandoffToHuman, None, None, Some(Escalated), requested, None, None, None);
    }

    method GateTool(tool: Tool, request: Option<int>, discount: Option<real>, days: Option<int>, attempts: int,
                    clock: Instant, policy: Policy) returns (d: Decision)
      requires Valid(policy)
      modifies this`state, this`audit, this`tickets
      ensures d == GateDecision(old(View()), tool, request, discount, days, attempts, clock, policy)
      ensures View() == GateEffect(old(View()), d)
      ensures tool == HandoffToHuman ==> d.allowed && state == Escalated && tickets == old(tickets) + 1
      ensures tool == Stop ==> d.allowed && state == Cancelled && tickets == old(tickets)
    {
      var (action, channel, next) := Resolve(tool);
      if tool == HandoffToHuman {
        d := HandOff(true);
      } else if tool == Stop {
        SetState(Cancelled, AuditRow(ExecuteIntervention, StateTransition, None, None, None, None));
        d := Decision(tool, None, None, Some(Cancelled), true, None, None, None);
      } else if channel.Some? && QuietHours(clock) {
        d := Deny(tool, Waiting, RetryScheduled, TraiQuietHours);
      } else if action == Some(RetryCharge) && RetryCapExceeded(retryCount, maxRetries) {
        d := Deny(tool, Cancelled, StateTransition, RbiMaxRetries);
      } else if channel == Some(Voice) && VoiceAttemptsExhausted(attempts) {
        d := Deny(tool, Cancelled, StateTransition, VoiceAttemptCap);
      } else if Validate(policy, GateProposal(tool, request, bill, discount)) != Approved {
        d := HandOff(false);
      } else {
        if tool == ScheduleRetry {
          SetState(Waiting, AuditRow(ExecuteIntervention, RetryScheduled, None, None, None, None));
        }
        d := Decision(tool, action, channel, next, true, None, Some(request.GetOr(bill)), days);
      }
    }

    /** Redirect a spent nudge to a call. */
    method Redirect(tool: Tool, policy: Policy) returns (chosen: Tool, attempts: nat)
      ensures attempts == VoiceAttempts(View())
      ensures chosen == Redirected(tool, Nudges(View()), attempts, policy)
    {
      attempts := CountRows(IsVoiceDispatch);
      var nudges := CountRows(IsNudge);
      var voicePermitted := Voice in policy.channels && Action.VoiceCall in policy.actions;
      chosen := tool;
      if tool == Tool.SendWhatsApp && NudgesExhausted(nudges) && !VoiceAttemptsExhausted(attempts) && voicePermitted {
        chosen := Tool.VoiceCall;
      }
    }

    /** One proposal per turn: redirect a spent nudge, clamp the numbers, run the gates. */
    method DecideTool(p: Payload, clock: Instant, policy: Policy) returns (d: Decision)
      requires Valid(policy)
      modifies this`state, this`audit, this`tickets
      ensures d == Decide(old(View()), p, clock, policy)
      ensures View() == GateEffect(old(View()), d)
    {
      var tool, attempts := Redirect(p.tool, policy);
      var request := Request(tool, p.amountInr, bill);
      d := GateTool(tool, request, p.discountPct, ClampDeadline(p.deadlineDays), attempts, clock, policy);
    }

    method FinishSession(final: LifecycleState)
      modifies this`state, this`terminal
      ensures View() == Finish(old(View()), final)
    {
      state := final;
      terminal := true;
    }

    method ApplyAgentDecision(d: Decision, env: MintEnv, clock: Instant)
      modifies this`artifacts, this`paymentLinkId, this`balanceDue, this`balanceDeadline, this`state, this`audit, this`terminal
      ensures View() == ApplyDecision(old(View()), d, env, clock)
    {
      if d.allowed && d.channel.Some? {
        if PaymentAction(d.action) {
          var amount := MintedAmount(d, bill);
          var partial := amount < bill || d.action == Some(Action.OfferPartialPlan);
          var minted := Mint(RenderKind(d.action, failureClass), amount, partial, Some(PlanDeadline(d, env, clock)),
                             env.providerId, env.cancelRaises);
          if !minted {
            return;
          }
        }
        SetState(Intervening, DispatchRow(d.action, d.channel));
      } else if d.terminalState == Some(Escalated) || d.terminalState == Some(Cancelled) {
        FinishSession(d.terminalState.value);
      }
    }

    // --------------------------------------------------------- entry points

    /** The opening beat, from the playbook of the failure class. */
    method OpeningBeat(clock: Instant, policy: Policy, env: MintEnv)
      requires Valid(policy)
      modifies this
      ensures View() == Opening(old(View()), clock, policy, env)
      ensures started == old(started) && closed == old(closed)
    {
      SetState(Diagnosing, Row(Ingest, StateTransition));
      RecordAudit(Row(Diagnose, StateTransition));
      var d := DecideTool(OpeningPayload(failureClass), clock, policy);
      ApplyAgentDecision(d, env, clock);
    }

    method Open(clock: Instant, policy: Policy, env: MintEnv)
      requires Valid(policy)
      modifies this
      ensures View() == Opening(old(View()), clock, policy, env)
      ensures started == old(started) && closed == old(closed)
      ensures KeepsSafe(old(View()), View())
    {
      StepKeepsSafe(View(), Begin(clock, policy, env));
      OpeningBeat(clock, policy, env);
    }

    /** Open the session unless that was done, or it was closed. */
    method Start(clock: Instant, policy: Policy, env: MintEnv)
      requires Valid(policy)
      modifies this
      ensures View() == if old(started) || old(closed) then old(View()) else Opening(old(View()), clock, policy, env)
      ensures started == (old(started) || !old(closed)) && closed == old(closed)
      ensures KeepsSafe(old(View()), View())
    {
      if !started && !closed {
        started := true;
        Open(clock, policy, env);
      }
    }

    method Close()
      modifies this`closed
      ensures closed
    {
      closed := true;
    }

    /** Answer a reply in a session that is open. */
    method Answer(v: Verdict, p: Payload, reminded: bool, clock: Instant, policy: Policy, env: MintEnv)
      requires Valid(policy)
      modifies this
      ensures View() == Reply(old(View()), v, p, reminded, clock, policy, env)
      ensures started == old(started) && closed == old(closed)
    {
      if terminal {
        return;
      }
      if v.disposition != Continue {
        var final := Cancelled;
        if v.disposition == Escalate {
          EnqueueEscalation();
          final := Escalated;
        }
        SetState(final, AuditRow(Ingest, StateTransition, None, None, v.rule, None));
        FinishSession(final);
        return;
      }
      var d := DecideTool(p, clock, policy);
      ApplyAgentDecision(d, env, clock);
      if reminded {
        RecordAudit(Row(Ingest, StateTransition));
      }
    }

    /** One customer reply: it opens a session that was not started, and a closed session
        takes none. The opening reads its own clock, policy and provider. */
    method Receive(v: Verdict, p: Payload, reminded: bool, clock: Instant, policy: Policy, env: MintEnv,
                   opening: Instant, openingPolicy: Policy, openingEnv: MintEnv)
      requires Valid(policy) && Valid(openingPolicy)
      modifies this
      ensures var before := if old(started) then old(View()) else Opening(old(View()), opening, openingPolicy, openingEnv);
        View() == if old(closed) then old(View()) else Reply(before, v, p, reminded, clock, policy, env)
      ensures started == (old(started) || !old(closed)) && closed == old(closed)
      ensures KeepsSafe(old(View()), View())
    {
      Start(opening, openingPolicy, openingEnv);
      StepKeepsSafe(View(), Message(v, p, reminded, clock, policy, env));
      if !closed {
        Answer(v, p, reminded, clock, policy, env);
      }
    }

    method RunAgentTool(tool: Tool, request: Option<int>, days: Option<int>, clock: Instant, policy: Policy, env: MintEnv)
      requires Valid(policy)
      modifies this
      ensures View() == ToolCall(old(View()), tool, request, days, clock, policy, env)
      ensures KeepsSafe(old(View()), View())
    {
      StepKeepsSafe(View(), NamedTool(tool, request, days, clock, policy, env));
      var attempts := CountRows(IsVoiceDispatch);
      var d := GateTool(tool, request, None, days, attempts, clock, policy);
      ApplyAgentDecision(d, env, clock);
    }

    method PressCallButton(clock: Instant, policy: Policy) returns (started: bool)
      requires Valid(policy)
      modifies this`audit, this`tickets
      ensures View() == StartCall(old(View()), clock, policy)
      ensures started <==> CallGate(old(View()), clock, policy) == Cleared
      ensures KeepsSafe(old(View()), View())
    {
      StepKeepsSafe(View(), CallButton(clock, policy));
      var cap := if maxRetries == 0 then RBI_MAX_RETRIES else maxRetries;
      if QuietHours(clock) {
        RecordAudit(AuditRow(ExecuteIntervention, RetryScheduled, None, None, Some(TraiQuietHours), None));
        return false;
      }
      if RetryCapExceeded(retryCount, cap) {
        RecordAudit(AuditRow(ExecuteIntervention, StateTransition, None, None, Some(RbiMaxRetries), None));
        return false;
      }
      var attempts := CountRows(IsVoiceDispatch);
      if VoiceAttemptsExhausted(attempts) {
        RecordAudit(AuditRow(ExecuteIntervention, StateTransition, None, None, Some(VoiceAttemptCap), None));
        return false;
      }
      if Validate(policy, PlaybookProposal(MandateRefresh, bill, None)) != Approved {
        EnqueueEscalation();
        RecordAudit(AuditRow(ExecuteIntervention, Escalation, Some(Action.VoiceCall), Some(Voice), None, None));
        return false;
      }
      RecordAudit(DispatchRow(Some(Action.VoiceCall), Some(Voice)));
      return true;
    }

    // ------------------------------------------------------------- payments

    method AnnouncePayment(a: Artifact)
      modifies this`audit, this`state, this`terminal
      ensures View() == Announce(old(View()), a)
    {
      if !a.status.Paid? && !a.status.PartiallyPaid? {
        return;
      }
      RecordAudit(Row(NodeName.Reconcile, StateTransition));
      if !terminal && state.Recovered? {
        FinishSession(Recovered);
      }
    }

    method CheckArtifact(i: nat, answer: GatewayAnswer)
      requires i < |artifacts|
      modifies this
      ensures View() == Check(old(View()), i, answer)
      ensures |artifacts| == |old(artifacts)|
    {
      var before := artifacts[i];
      Reconcile(i, answer);
      if artifacts[i].status != before.status || artifacts[i].amountPaid != before.amountPaid {
        AnnouncePayment(artifacts[i]);
      }
    }

    method CheckLatestPayment(answer: GatewayAnswer)
      modifies this
      ensures View() == CheckLatest(old(View()), answer)
      ensures KeepsSafe(old(View()), View())
    {
      StepKeepsSafe(View(), StatusCheck(answer));
      if artifacts != [] {
        CheckArtifact(|artifacts| - 1, answer);
      }
    }

    /** Poll these artifacts in turn, until the session is finished. */
    method PollInTurn(pending: seq<nat>, answers: nat -> GatewayAnswer)
      requires Within(pending, |artifacts|)
      modifies this
      ensures View() == PollAll(old(View()), pending, answers)
    {
      var k := 0;
      while k < |pending| && !terminal
        invariant 0 <= k <= |pending| && Within(pending, |artifacts|)
        invariant PollAll(View(), pending[k..], answers) == PollAll(old(View()), pending, answers)
      {
        assert pending[k..][1..] == pending[k + 1..];
        CheckArtifact(pending[k], answers(pending[k]));
        k := k + 1;
      }
    }

    method ReconcilePending(answers: nat -> GatewayAnswer)
      modifies this
      ensures View() == Poll(old(View()), answers)
      ensures !terminal ==> Reached(old(View()), View(), answers, 0, |artifacts|)
      ensures KeepsSafe(old(View()), View())
    {
      PollOutcome(View(), answers);
      StepKeepsSafe(View(), Poller(answers));
      PollInTurn(Select(artifacts, Pollable), answers);
    }

    // ---------------------------------------------------------- the sweeper

    method ProcessArtifact(i: nat, answer: GatewayAnswer, now: Instant, policy: Policy)
      requires i < |artifacts| && Valid(policy)
      modifies this
      ensures View() == ProcessDue(old(View()), i, answer, now, policy)
      ensures |artifacts| == |old(artifacts)|
    {
      Reconcile(i, answer);
      if TerminalState(state) || !Payable(artifacts[i]) {
        return;
      }
      var balance := balanceDue.GetOr(0);
      if balance <= 0 {
        return;
      }
      var d := GateTool(Tool.SendWhatsApp, None, None, None, 0, now, policy);
      if !d.allowed {
        return;
      }
      artifacts := artifacts[i := artifacts[i].(followedUpAt := Some(now))];
      RecordAudit(AuditRow(ExecuteIntervention, InterventionDispatch, None, None, None, Some(i)));
    }

    /** Process these artifacts in turn. */
    method ProcessInTurn(due: seq<nat>, answers: nat -> GatewayAnswer, now: Instant, policy: Policy)
      requires Within(due, |artifacts|) && Valid(policy)
      modifies this
      ensures View() == SweepAll(old(View()), due, answers, now, policy)
    {
      var k := 0;
      while k < |due|
        invariant 0 <= k <= |due| && Within(due, |artifacts|)
        invariant SweepAll(View(), due[k..], answers, now, policy) == SweepAll(old(View()), due, answers, now, policy)
      {
        assert due[k..][1..] == due[k + 1..];
        ProcessArtifact(due[k], answers(due[k]), now, policy);
        k := k + 1;
      }
    }

    method Tick(answers: nat -> GatewayAnswer, now: Instant, policy: Policy)
      requires Valid(policy)
      modifies this
      ensures View() == Sweep(old(View()), answers, now, policy)
      ensures KeepsSafe(old(View()), View())
    {
      StepKeepsSafe(View(), Event.Tick(answers, now, policy));
      var due := if TerminalState(state) then [] else Select(artifacts, DueAt(now));
      ProcessInTurn(due, answers, now, policy);
    }

    // ------------------------------------------------------------ the graph

    method IngestStep(v: Verdict) returns (disposition: Option<LifecycleState>)
      modifies this
      ensures (View(), disposition) == IngestNode(old(View()), v)
    {
      SetState(Diagnosing, Row(Ingest, StateTransition));
      match v.disposition
      case Terminate =>
        SetState(Cancelled, AuditRow(Ingest, StateTransition, None, None, v.rule, None));
        return Some(Cancelled);
      case Escalate =>
        EnqueueEscalation();
        SetState(Escalated, AuditRow(Ingest, StateTransition, None, None, v.rule, None));
        return Some(Escalated);
      case Continue =>
        return None;
    }

    method ExecuteStep(g: GraphInput) returns (disposition: Option<LifecycleState>, sent: seq<Action>)
      requires Valid(g.policy)
      modifies this
      ensures (View(), disposition, sent) == ExecuteNode(old(View()), g)
    {
      ghost var outcome := GraphGate(View(), g);
      var (action, channel) := PlaybookAction(g.playbook);
      if channel.Some? && QuietHours(g.clock) {
        assert outcome == Halted(TraiQuietHours);
        SetState(Waiting, AuditRow(ExecuteIntervention, RetryScheduled, None, None, Some(TraiQuietHours), None));
        return Some(Waiting), [];
      }
      if action == RetryCharge && RetryCapExceeded(retryCount, RBI_MAX_RETRIES) {
        assert outcome == Halted(RbiMaxRetries);
        SetState(Cancelled, AuditRow(ExecuteIntervention, StateTransition, None, None, Some(RbiMaxRetries), None));
        return Some(Cancelled), [];
      }
      if channel == Some(Voice) {
        var counted := CountRows(IsVoiceDispatch);
        var attempts := g.seededVoice.GetOr(counted);
        if VoiceAttemptsExhausted(attempts) {
          assert outcome == Halted(VoiceAttemptCap);
          SetState(Cancelled, AuditRow(ExecuteIntervention, StateTransition, None, None, Some(VoiceAttemptCap), None));
          return Some(Cancelled), [];
        }
      }
      if Validate(g.policy, PlaybookProposal(g.playbook, bill, g.discount)) != Approved {
        assert outcome == Blocked;
        EnqueueEscalation();
        SetState(Escalated, AuditRow(ExecuteIntervention, StateTransition, None, None, None, None));
        return Some(Escalated), [];
      }
      assert outcome == if g.dispatchRaises then Raised else Cleared;
      state := Intervening;
      if g.dispatchRaises {
        return Some(Intervening), [];
      }
      RecordAudit(DispatchRow(Some(action), channel));
      return None, [action];
    }

    method ReconcileStep(event: Option<string>) returns (disposition: Option<LifecycleState>)
      modifies this
      ensures (View(), disposition) == ReconcileNode(old(View()), event)
    {
      if event == Some("payment.captured") || event == Some("payment.authorized") {
        SetState(Recovered, AuditRow(NodeName.Reconcile, StateTransition, None, None, None, None));
        return Some(Recovered);
      }
      RecordAudit(Row(NodeName.Reconcile, StateTransition));
      return None;
    }

    /** Walk the graph from ingest to its end. */
    method InvokeGraph(g: GraphInput) returns (sent: seq<Action>, visited: seq<NodeName>)
      requires Valid(g.policy)
      modifies this
      ensures var r := RunGraph(old(View()), g);
        View() == r.c && sent == r.sent && visited == r.visited
      ensures g.seededVoice.None? ==> KeepsSafe(old(View()), View())
    {
      if g.seededVoice.None? { StepKeepsSafe(View(), Graph(g)); }
      var node, disposition := Some(Ingest), None;
      sent, visited := [], [];
      while node.Some?
        invariant RunFrom(node, GraphState(View(), disposition, sent, visited), g) == RunGraph(old(View()), g)
        decreases Rank(node)
      {
        match node.value {
          case Ingest => disposition := IngestStep(g.verdict);
          case Diagnose => RecordAudit(Row(Diagnose, StateTransition));
          case Wait => SetState(Waiting, Row(Wait, RetryScheduled));
          case ExecuteIntervention =>
            var actions;
            disposition, actions := ExecuteStep(g);
            sent := sent + actions;
          case Reconcile => disposition := ReconcileStep(g.event);
        }
        visited := visited + [node.value];
        node := Next(node.value, disposition, g.playbook);
      }
    }
  }
}
