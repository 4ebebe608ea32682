/** What the bounds gauge shows against what the gates go by, over whole runs. */
module Gauges {
  import opened Domain
  import opened Policies
  import opened Proposals
  import opened Ledger
  import opened Gates
  import opened Workflow
  import opened Sessions
  import opened Safety
  import opened Runs
  import opened Bounds
  import Outcomes

  function StrayCalls(c: Case): nat { Count(c.audit, IsStrayCall) }

  // --------------------------------------------------------- the voice gauge

  /** What a gate clears for a channel is the tool's own action on the tool's own channel. */
  lemma ClearedToolIsItsOwn(c: Case, tool: Tool, request: Option<int>, discount: Option<real>, days: Option<int>,
                            attempts: int, clock: Instant, policy: Policy)
    requires Valid(policy)
    ensures var d := GateDecision(c, tool, request, discount, days, attempts, clock, policy);
      d.allowed && d.channel.Some? ==> (d.action, d.channel) == (Resolve(tool).0, Resolve(tool).1)
  {
    if Resolve(tool).1.Some? {
      ApprovalMeansEveryGatePassed(c, tool, request, discount, days, attempts, clock, policy);
    }
  }

  lemma OwnToolIsNoStrayCall(tool: Tool)
    ensures !IsStrayCall(DispatchRow(Resolve(tool).0, Resolve(tool).1))
  {}

  lemma DecisionAddsNoStrayCall(c: Case, tool: Tool, request: Option<int>, discount: Option<real>, days: Option<int>,
                                attempts: int, clock: Instant, policy: Policy, env: MintEnv)
    requires Valid(policy)
    ensures var d := GateDecision(c, tool, request, discount, days, attempts, clock, policy);
      StrayCalls(Enact(c, d, env, clock)) == StrayCalls(c)
  {
    var d := GateDecision(c, tool, request, discount, days, attempts, clock, policy);
    ClearedToolIsItsOwn(c, tool, request, discount, days, attempts, clock, policy);
    OwnToolIsNoStrayCall(tool);
    EnactCounts(c, d, env, clock, IsStrayCall);
  }

  lemma DecideAddsNoStrayCall(c: Case, p: Payload, clock: Instant, policy: Policy, env: MintEnv)
    requires Valid(policy)
    ensures StrayCalls(Enact(c, Decide(c, p, clock, policy), env, clock)) == StrayCalls(c)
  {
    var attempts := VoiceAttempts(c);
    var tool := Redirected(p.tool, Nudges(c), attempts, policy);
    DecisionAddsNoStrayCall(c, tool, Request(tool, p.amountInr, c.bill), p.discountPct, ClampDeadline(p.deadlineDays),
                            attempts, clock, policy, env);
  }

  lemma ReplyAddsNoStrayCall(c: Case, v: Verdict, p: Payload, reminded: bool, clock: Instant, policy: Policy, env: MintEnv)
    requires Valid(policy)
    ensures StrayCalls(Reply(c, v, p, reminded, clock, policy, env)) == StrayCalls(c)
  {
    LoggedCounts(c, AuditRow(Ingest, StateTransition, None, None, v.rule, None), IsStrayCall);
    DecideAddsNoStrayCall(c, p, clock, policy, env);
    LoggedCounts(Enact(c, Decide(c, p, clock, policy), env, clock), Row(Ingest, StateTransition), IsStrayCall);
  }

  lemma CallButtonAddsNoStrayCall(c: Case, clock: Instant, policy: Policy)
    requires Valid(policy)
    ensures StrayCalls(StartCall(c, clock, policy)) == StrayCalls(c)
  {
    var d := StartCall(c, clock, policy);
    CallButtonWritesOnlyTheAudit(c, clock, policy);
    CountOneMore(c.audit, d.audit[|c.audit|], IsStrayCall);
  }

  lemma {:induction false} SweepAddsNoStrayCall(c: Case, due: seq<nat>, answers: nat -> GatewayAnswer, now: Instant,
                                                policy: Policy)
    requires Within(due, |c.artifacts|) && Valid(policy)
    ensures StrayCalls(SweepAll(c, due, answers, now, policy)) == StrayCalls(c)
    decreases |due|
  {
    if due != [] {
      ProcessCounts(c, due[0], answers(due[0]), now, policy, IsStrayCall);
      SweepAddsNoStrayCall(ProcessDue(c, due[0], answers(due[0]), now, policy), due[1..], answers, now, policy);
    }
  }

  lemma OpeningAddsNoStrayCall(c: Case, clock: Instant, policy: Policy, env: MintEnv)
    requires Valid(policy)
    ensures StrayCalls(Opening(c, clock, policy, env)) == StrayCalls(c)
  {
    OpenedCounts(c, IsStrayCall);
    DecideAddsNoStrayCall(Opened(c), OpeningPayload(c.failureClass), clock, policy, env);
  }

  lemma StatusCheckAddsNoStrayCall(c: Case, answer: GatewayAnswer)
    ensures StrayCalls(CheckLatest(c, answer)) == StrayCalls(c)
  {
    if c.artifacts != [] {
      CheckCounts(c, |c.artifacts| - 1, answer, IsStrayCall);
    }
  }

  lemma GraphAddsNoStrayCall(c: Case, g: GraphInput)
    requires Valid(g.policy)
    ensures StrayCalls(RunGraph(c, g).c) == StrayCalls(c)
  {
    EveryRun(c, g, IsStrayCall);
  }

  /** The sweeper, the poller and the other entry points that decide nothing. */
  lemma BackgroundStepAddsNoStrayCall(c: Case, e: Event)
    requires Admissible(e) && (e.NewSession? || e.Poller? || e.StatusCheck? || e.ForcedPayment? || e.Tick?)
    ensures StrayCalls(Step(c, e)) == StrayCalls(c)
  {
    match e
    case NewSession =>
    case Poller(answers) => PollCounts(c, Select(c.artifacts, Pollable), answers, IsStrayCall);
    case StatusCheck(answer) => StatusCheckAddsNoStrayCall(c, answer);
    case ForcedPayment(i) => ForcedPaymentCounts(c, i, IsStrayCall);
    case Tick(answers, now, policy) => SweepAddsNoStrayCall(c, DueNow(c, now), answers, now, policy);
  }

  lemma StepAddsNoStrayCall(c: Case, e: Event)
    requires Admissible(e)
    ensures StrayCalls(Step(c, e)) == StrayCalls(c)
  {
    match e
    case Begin(clock, policy, env) => OpeningAddsNoStrayCall(c, clock, policy, env);
    case Message(v, p, reminded, clock, policy, env) => ReplyAddsNoStrayCall(c, v, p, reminded, clock, policy, env);
    case NamedTool(tool, request, days, clock, policy, env) =>
      DecisionAddsNoStrayCall(c, tool, request, None, days, VoiceAttempts(c), clock, policy, env);
    case CallButton(clock, policy) => CallButtonAddsNoStrayCall(c, clock, policy);
    case Graph(input) => GraphAddsNoStrayCall(c, input);
    case _ => BackgroundStepAddsNoStrayCall(c, e);
  }

  /** In every run the calls the gauge shows, the calls the trace shows and the calls the
      voice gate counts are the same. */
  lemma {:induction false} VoiceGaugeIsTheGate(c: Case, events: seq<Event>)
    requires (forall e :: e in events ==> Admissible(e)) && StrayCalls(c) == 0
    ensures var d := Run(c, events);
      && StrayCalls(d) == 0
      && Count(d.audit, IsCall) == VoiceAttempts(d) == Spent(d.audit).voiceUsed
  {
    if events != [] {
      VoiceGaugeIsTheGate(c, events[..|events| - 1]);
      StepAddsNoStrayCall(Run(c, events[..|events| - 1]), events[|events| - 1]);
    }
    BoundsExceedTheTrace(Run(c, events).audit);
  }

  // --------------------------------------------------------- the retry gauge

  /** How many of the due plans a tick in quiet hours defers: those still owed in turn. */
  function SweepDeferrals(c: Case, due: seq<nat>, answers: nat -> GatewayAnswer, now: Instant, policy: Policy): nat
    requires Valid(policy) && Within(due, |c.artifacts|)
    decreases |due|
  {
    if due == [] then 0
    else
      var i, answer := due[0], answers(due[0]);
      (if StillOwed(ReconcileArtifact(c, i, answer), i) then 1 else 0)
      + SweepDeferrals(ProcessDue(c, i, answer, now, policy), due[1..], answers, now, policy)
  }

  /** In quiet hours something outbound is asked for: a tool a client names, the answer to a
      reply, the opening of a session, a call, the dispatch of a graph run, or a sweep. */
  predicate Deferred(c: Case, e: Event) {
    match e
    case NamedTool(tool, _, _, clock, _, _) => Resolve(tool).1.Some? && QuietHours(clock)
    case Message(v, p, _, clock, _, _) =>
      !c.terminal && v.disposition.Continue? && Resolve(p.tool).1.Some? && QuietHours(clock)
    case Begin(clock, _, _) => Resolve(OpeningPayload(c.failureClass).tool).1.Some? && QuietHours(clock)
    case CallButton(clock, _) => QuietHours(clock)
    case Graph(g) =>
      g.verdict.disposition.Continue? && PlaybookAction(g.playbook).1.Some? && QuietHours(g.clock)
    case Tick(_, now, _) => QuietHours(now)
    case _ => false
  }

  /** How many deferrals such a step makes: one, or for a sweep one for each plan owed. */
  function Deferrals(c: Case, e: Event): nat
    requires Admissible(e)
  {
    match e
    case Tick(answers, now, policy) => SweepDeferrals(c, DueNow(c, now), answers, now, policy)
    case _ => 1
  }

  const DEFERRAL := AuditRow(ExecuteIntervention, RetryScheduled, None, None, Some(TraiQuietHours), None)

  /** What the retry gate reads, and what the two counts of retries show. */
  predicate GaugeMoves(c: Case, d: Case, n: nat) {
    && Count(d.audit, UsesRetry) == Count(c.audit, UsesRetry) + n
    && Count(d.audit, UsesPlainRetry) == Count(c.audit, UsesPlainRetry)
    && d.retryCount == c.retryCount && d.maxRetries == c.maxRetries && d.bill == c.bill
  }

  lemma RowMovesTheGauge(c: Case, row: AuditRow)
    requires !UsesPlainRetry(row)
    ensures GaugeMoves(c, Logged(c, row), if UsesRetry(row) then 1 else 0)
  {
    CountOneMore(c.audit, row, UsesRetry);
    CountOneMore(c.audit, row, UsesPlainRetry);
  }

  lemma PlainRowMovesNothing(c: Case, row: AuditRow)
    requires row.actionType.StateTransition?
    ensures GaugeMoves(c, Logged(c, row), 0)
  {
    RowMovesTheGauge(c, row);
  }

  lemma DeferralMovesTheGauge(c: Case)
    ensures GaugeMoves(c, Logged(c, DEFERRAL), 1)
  {
    RowMovesTheGauge(c, DEFERRAL);
  }

  lemma DeniedToolIsLogged(c: Case, tool: Tool, env: MintEnv, clock: Instant)
    ensures Enact(c, Denied(tool, Waiting, TraiQuietHours), env, clock) == Moved(c, Waiting, DEFERRAL)
  {
  }

  lemma QuietDecisionDenies(c: Case, p: Payload, clock: Instant, policy: Policy)
    requires Valid(policy) && Resolve(p.tool).1.Some? && QuietHours(clock)
    ensures exists tool :: Decide(c, p, clock, policy) == Denied(tool, Waiting, TraiQuietHours)
  {
    var tool := Redirected(p.tool, Nudges(c), VoiceAttempts(c), policy);
    assert Decide(c, p, clock, policy) == Denied(tool, Waiting, TraiQuietHours);
  }

  lemma QuietDecisionMovesTheGauge(c: Case, p: Payload, clock: Instant, policy: Policy, env: MintEnv)
    requires Valid(policy) && Resolve(p.tool).1.Some? && QuietHours(clock)
    ensures GaugeMoves(c, Enact(c, Decide(c, p, clock, policy), env, clock), 1)
  {
    QuietDecisionDenies(c, p, clock, policy);
    var tool :| Decide(c, p, clock, policy) == Denied(tool, Waiting, TraiQuietHours);
    DeniedToolIsLogged(c, tool, env, clock);
    DeferralMovesTheGauge(c);
  }

  lemma DeferredToolMovesTheGauge(c: Case, e: Event)
    requires e.NamedTool? && Admissible(e) && Deferred(c, e)
    ensures GaugeMoves(c, Step(c, e), 1)
  {
    assert ToolDecision(c, e.tool, e.request, e.days, e.clock, e.policy) == Denied(e.tool, Waiting, TraiQuietHours);
    DeniedToolIsLogged(c, e.tool, e.env, e.clock);
    DeferralMovesTheGauge(c);
  }

  lemma DeferredReplyMovesTheGauge(c: Case, e: Event)
    requires e.Message? && Admissible(e) && Deferred(c, e)
    ensures GaugeMoves(c, Step(c, e), 1)
  {
    QuietDecisionMovesTheGauge(c, e.payload, e.clock, e.policy, e.env);
    PlainRowMovesNothing(Enact(c, Decide(c, e.payload, e.clock, e.policy), e.env, e.clock), Row(Ingest, StateTransition));
  }

  lemma OpenedMovesNothing(c: Case)
    ensures GaugeMoves(c, Opened(c), 0)
  {
    var diagnosing := c.(state := Diagnosing);
    PlainRowMovesNothing(diagnosing, Row(Ingest, StateTransition));
    PlainRowMovesNothing(Logged(diagnosing, Row(Ingest, StateTransition)), Row(Diagnose, StateTransition));
  }

  lemma DeferredOpeningMovesTheGauge(c: Case, e: Event)
    requires e.Begin? && Admissible(e) && Deferred(c, e)
    ensures GaugeMoves(c, Step(c, e), 1)
  {
    OpenedMovesNothing(c);
    QuietDecisionMovesTheGauge(Opened(c), OpeningPayload(c.failureClass), e.clock, e.policy, e.env);
  }

  lemma GaugeMovesOn(c: Case, d: Case, e: Case, m: nat, n: nat)
    requires GaugeMoves(c, d, m) && GaugeMoves(d, e, n)
    ensures GaugeMoves(c, e, m + n)
  {
  }

  /** In quiet hours a graph run ends at the execute step with a deferral. */
  lemma QuietGraphRun(c: Case, g: GraphInput)
    requires Valid(g.policy) && Deferred(c, Graph(g))
    ensures RunGraph(c, g).c == Moved(Opened(c), Waiting, DEFERRAL)
  {
    var start := GraphState(c, None, [], []);
    var ingested := Visit(Ingest, start, g);
    assert ingested.c == Moved(c, Diagnosing, Row(Ingest, StateTransition)) && ingested.disposition.None?;
    OneStep(Ingest, start, g);
    var diagnosed := Visit(Diagnose, ingested, g);
    assert diagnosed.c == Opened(c);
    OneStep(Diagnose, ingested, g);
    QuietExecution(diagnosed, g);
  }

  lemma QuietExecution(s: GraphState, g: GraphInput)
    requires Valid(g.policy) && PlaybookAction(g.playbook).1.Some? && QuietHours(g.clock)
    ensures RunFrom(Some(ExecuteIntervention), s, g).c == Moved(s.c, Waiting, DEFERRAL)
  {
    var executed := Visit(ExecuteIntervention, s, g);
    assert GraphGate(s.c, g) == Halted(TraiQuietHours);
    assert executed.c == Moved(s.c, Waiting, DEFERRAL) && executed.disposition == Some(Waiting);
    OneStep(ExecuteIntervention, s, g);
    NoStep(executed, g);
  }

  lemma DeferredGraphMovesTheGauge(c: Case, e: Event)
    requires e.Graph? && Admissible(e) && Deferred(c, e)
    ensures GaugeMoves(c, Step(c, e), 1)
  {
    QuietGraphRun(c, e.input);
    OpenedMovesNothing(c);
    DeferralMovesTheGauge(Opened(c));
  }

  lemma DeferredPlanMovesTheGauge(c: Case, i: nat, answer: GatewayAnswer, now: Instant, policy: Policy)
    requires i < |c.artifacts| && Valid(policy) && QuietHours(now)
    ensures GaugeMoves(c, ProcessDue(c, i, answer, now, policy),
                       if StillOwed(ReconcileArtifact(c, i, answer), i) then 1 else 0)
  {
    var r := ReconcileArtifact(c, i, answer);
    var n := if StillOwed(r, i) then 1 else 0;
    PollMovesNothing(c, i, answer);
    QuietChaseMovesTheGauge(r, i, now, policy);
    GaugeMovesOn(c, r, Chase(r, i, now, policy), 0, n);
  }

  lemma PollMovesNothing(c: Case, i: nat, answer: GatewayAnswer)
    requires i < |c.artifacts|
    ensures GaugeMoves(c, ReconcileArtifact(c, i, answer), 0)
  {
    assert ReconcileArtifact(c, i, answer).audit == c.audit;
  }

  lemma QuietChaseMovesTheGauge(r: Case, i: nat, now: Instant, policy: Policy)
    requires i < |r.artifacts| && Valid(policy) && QuietHours(now)
    ensures GaugeMoves(r, Chase(r, i, now, policy), if StillOwed(r, i) then 1 else 0)
  {
    assert FollowUpDecision(r, now, policy) == Denied(Tool.SendWhatsApp, Waiting, TraiQuietHours);
    DeferralMovesTheGauge(r);
  }

  lemma {:induction false} QuietSweepMovesTheGauge(c: Case, due: seq<nat>, answers: nat -> GatewayAnswer, now: Instant,
                                                   policy: Policy)
    requires Within(due, |c.artifacts|) && Valid(policy) && QuietHours(now)
    ensures GaugeMoves(c, SweepAll(c, due, answers, now, policy), SweepDeferrals(c, due, answers, now, policy))
    decreases |due|
  {
    if due != [] {
      var i, answer, rest := due[0], answers(due[0]), due[1..];
      var mid := ProcessDue(c, i, answer, now, policy);
      DeferredPlanMovesTheGauge(c, i, answer, now, policy);
      QuietSweepMovesTheGauge(mid, rest, answers, now, policy);
      GaugeMovesOn(c, mid, SweepAll(mid, rest, answers, now, policy),
                   if StillOwed(ReconcileArtifact(c, i, answer), i) then 1 else 0,
                   SweepDeferrals(mid, rest, answers, now, policy));
    }
  }

  lemma DeferredStepMovesTheGauge(c: Case, e: Event)
    requires Admissible(e) && Deferred(c, e)
    ensures GaugeMoves(c, Step(c, e), Deferrals(c, e))
  {
    match e
    case NamedTool(_, _, _, _, _, _) => DeferredToolMovesTheGauge(c, e);
    case Message(_, _, _, _, _, _) => DeferredReplyMovesTheGauge(c, e);
    case Begin(_, _, _) => DeferredOpeningMovesTheGauge(c, e);
    case CallButton(_, _) => DeferralMovesTheGauge(c);
    case Graph(_) => DeferredGraphMovesTheGauge(c, e);
    case Tick(answers, now, policy) => QuietSweepMovesTheGauge(c, DueNow(c, now), answers, now, policy);
  }

  ghost predicate AllDeferred(c: Case, events: seq<Event>)
    requires forall e :: e in events ==> Admissible(e)
  {
    events != [] ==>
      var before := events[..|events| - 1];
      AllDeferred(c, before) && Deferred(Run(c, before), events[|events| - 1])
  }

  ghost function DeferralsOver(c: Case, events: seq<Event>): nat
    requires forall e :: e in events ==> Admissible(e)
  {
    if events == [] then 0
    else
      var before := events[..|events| - 1];
      DeferralsOver(c, before) + Deferrals(Run(c, before), events[|events| - 1])
  }

  /** Each deferral adds one to the retries the gauge shows and none to those the trace
      shows or the retry gate counts. */
  lemma {:induction false} DeferralsFillTheRetryGauge(c: Case, events: seq<Event>)
    requires (forall e :: e in events ==> Admissible(e)) && AllDeferred(c, events)
    ensures GaugeMoves(c, Run(c, events), DeferralsOver(c, events))
    ensures Spent(Run(c, events).audit).retriesUsed == Spent(c.audit).retriesUsed
  {
    if events != [] {
      var before := events[..|events| - 1];
      DeferralsFillTheRetryGauge(c, before);
      DeferredStepMovesTheGauge(Run(c, before), events[|events| - 1]);
    }
  }

  lemma OneDeferral(c: Case, e: Event)
    requires Admissible(e) && !e.Tick?
    ensures Deferrals(c, e) == 1
  {
  }

  /** Without a sweep among them, the deferrals are as many as the steps. */
  lemma {:induction false} OneDeferralAStep(c: Case, events: seq<Event>)
    requires forall e :: e in events ==> Admissible(e) && !e.Tick?
    ensures DeferralsOver(c, events) == |events|
  {
    if events != [] {
      var before := events[..|events| - 1];
      OneDeferralAStep(c, before);
      OneDeferral(Run(c, before), events[|events| - 1]);
    }
  }

  /** So after any number of deferrals the gauge shows the retry cap as reached exactly when
      they and the retries it showed before make three, while the gate grants a retry
      exactly as it did before the first of them. */
  lemma DeferralsExhaustTheGaugeOnly(c: Case, events: seq<Event>, allowed: seq<Channel>, fired: Option<StoppingRule>,
                                     clock: Instant, policy: Policy)
    requires (forall e :: e in events ==> Admissible(e)) && AllDeferred(c, events) && Valid(policy)
    ensures var d := Run(c, events);
      && (Gauge(d.audit, d.state, allowed, c.failureClass, fired, clock).retries.exhausted
          <==> Count(c.audit, UsesRetry) + DeferralsOver(c, events) >= RBI_MAX_RETRIES)
      && (Count(c.audit, UsesRetry) + DeferralsOver(c, events) >= RBI_MAX_RETRIES && !TerminalState(d.state) && !QuietHours(clock) ==>
            Gauge(d.audit, d.state, allowed, c.failureClass, fired, clock).armedRule == Some(RbiMaxRetries))
      && ToolDecision(d, ScheduleRetry, None, None, clock, policy).allowed
         == ToolDecision(c, ScheduleRetry, None, None, clock, policy).allowed
  {
    DeferralsFillTheRetryGauge(c, events);
    Outcomes.RetryIsGrantedExactlyWhen(c, None, None, None, VoiceAttempts(c), clock, policy);
    Outcomes.RetryIsGrantedExactlyWhen(Run(c, events), None, None, None, VoiceAttempts(Run(c, events)), clock, policy);
  }
}
