/** The entry points of the engine as steps on a case: live turns, client-named tools,
    the call button, payment polls, the deadline sweeper, and the graph. */
module Sessions {
  import opened Domain
  import opened Policies
  import opened Ledger
  import opened Gates
  import opened Workflow

  /** What a mint depends on besides the case: the provider's answer, whether cancelling
      a superseded link raises, and the deployment's deadline settings. */
  datatype MintEnv = MintEnv(providerId: Option<string>, cancelRaises: bool, demoSeconds: nat, defaultDays: int)

  predicate PaymentAction(a: Option<Action>) {
    a == Some(Action.GeneratePaymentLink) || a == Some(Action.GenerateQrCode) || a == Some(Action.OfferPartialPlan)
  }

  function RenderKind(action: Option<Action>, failureClass: int): ArtifactKind {
    if action == Some(Action.GenerateQrCode) || failureClass == 3 then Qr
    else if failureClass == 2 then UpiLink
    else Link
  }

  function PlanDeadline(d: Decision, env: MintEnv, clock: Instant): Instant {
    if env.demoSeconds > 0 then clock + env.demoSeconds
    else
      var days := if d.deadlineDays.Some? && d.deadlineDays.value != 0 then d.deadlineDays.value else env.defaultDays;
      clock + days * DAY
  }

  function MintFor(c: Case, d: Decision, env: MintEnv, clock: Instant): Case {
    var amount := MintedAmount(d, c.bill);
    var partial := amount < c.bill || d.action == Some(Action.OfferPartialPlan);
    Mint(c, RenderKind(d.action, c.failureClass), amount, partial, Some(PlanDeadline(d, env, clock)), env.providerId)
  }

  function Finish(c: Case, state: LifecycleState): Case { c.(state := state, terminal := true) }

  /** Carry out a decision: mint and dispatch, or finish. A mint that crashes ends the
      request before anything is written. */
  function ApplyDecision(c: Case, d: Decision, env: MintEnv, clock: Instant): Case {
    if d.allowed && d.channel.Some? then
      if PaymentAction(d.action) && CancelCrashes(c.artifacts, env.cancelRaises) then c
      else
        var minted := if PaymentAction(d.action) then MintFor(c, d, env, clock) else c;
        Moved(minted, Intervening, DispatchRow(d.action, d.channel))
    else if d.terminalState == Some(Escalated) || d.terminalState == Some(Cancelled) then
      Finish(c, d.terminalState.value)
    else c
  }

  /** Commit a gate's verdict, then act on it. */
  function Enact(c: Case, d: Decision, env: MintEnv, clock: Instant): Case {
    ApplyDecision(GateEffect(c, d), d, env, clock)
  }

  function OpeningPayload(failureClass: int): Payload {
    Payload(ToolForPlaybook(DefaultPlaybook(failureClass)), None, None, None)
  }

  function Opened(c: Case): Case {
    Logged(Moved(c, Diagnosing, Row(Ingest, StateTransition)), Row(Diagnose, StateTransition))
  }

  /** The first beat of a session, from the class playbook. */
  function Opening(c: Case, clock: Instant, policy: Policy, env: MintEnv): Case
    requires Valid(policy)
  {
    var o := Opened(c);
    Enact(o, Decide(o, OpeningPayload(c.failureClass), clock, policy), env, clock)
  }

  /** A reading that stops the case. */
  function ScreenedStop(c: Case, v: Verdict): Case {
    var state, ticket := if v.disposition.Escalate? then Escalated else Cancelled, if v.disposition.Escalate? then 1 else 0;
    Finish(Finalized(c.(tickets := c.tickets + ticket), state, Ingest, v.rule), state)
  }

  /** One customer reply. `reminded` says whether the turn booked a calendar reminder. */
  function Reply(c: Case, v: Verdict, p: Payload, reminded: bool, clock: Instant, policy: Policy, env: MintEnv): Case
    requires Valid(policy)
  {
    if c.terminal then c
    else if !v.disposition.Continue? then ScreenedStop(c, v)
    else
      var after := Enact(c, Decide(c, p, clock, policy), env, clock);
      if reminded then Logged(after, Row(Ingest, StateTransition)) else after
  }

  /** A tool the client names directly; the amount and the days are the client's. */
  function ToolDecision(c: Case, tool: Tool, request: Option<int>, days: Option<int>, clock: Instant, policy: Policy): Decision
    requires Valid(policy)
  {
    GateDecision(c, tool, request, None, days, VoiceAttempts(c), clock, policy)
  }

  function ToolCall(c: Case, tool: Tool, request: Option<int>, days: Option<int>, clock: Instant, policy: Policy,
                    env: MintEnv): Case
    requires Valid(policy)
  {
    Enact(c, ToolDecision(c, tool, request, days, clock, policy), env, clock)
  }

  /** The operator's call button: it writes the audit but never moves the case. */
  function StartCall(c: Case, clock: Instant, policy: Policy): Case
    requires Valid(policy)
  {
    match CallGate(c, clock, policy)
    case Halted(rule) =>
      var kind := if rule.TraiQuietHours? then RetryScheduled else StateTransition;
      Logged(c, AuditRow(ExecuteIntervention, kind, None, None, Some(rule), None))
    case Blocked =>
      Logged(c.(tickets := c.tickets + 1),
             AuditRow(ExecuteIntervention, Escalation, Some(Action.VoiceCall), Some(Voice), None, None))
    case _ => Logged(c, DispatchRow(Some(Action.VoiceCall), Some(Voice)))
  }

  // ------------------------------------------------------------ payments

  /** Tell the thread about a payment, and finish the session when the case recovered. */
  function Announce(c: Case, a: Artifact): Case {
    if !a.status.Paid? && !a.status.PartiallyPaid? then c
    else
      var logged := Logged(c, Row(Reconcile, StateTransition));
      if !c.terminal && c.state.Recovered? then Finish(logged, Recovered) else logged
  }

  /** Poll one artifact, and announce what changed. */
  function Check(c: Case, i: nat, answer: GatewayAnswer): (r: Case)
    requires i < |c.artifacts|
    ensures |r.artifacts| == |c.artifacts|
  {
    var d := ReconcileArtifact(c, i, answer);
    var before, after := c.artifacts[i], d.artifacts[i];
    if after.status != before.status || after.amountPaid != before.amountPaid then Announce(d, after) else d
  }

  /** The on-demand check looks at the newest artifact only. */
  function CheckLatest(c: Case, answer: GatewayAnswer): Case {
    if c.artifacts == [] then c else Check(c, |c.artifacts| - 1, answer)
  }

  predicate Pollable(a: Artifact) { a.providerId.Some? && Payable(a) }

  predicate Within(positions: seq<nat>, n: nat) {
    forall j :: 0 <= j < |positions| ==> positions[j] < n
  }

  /** The positions a query keeps, oldest first. */
  function Select(artifacts: seq<Artifact>, p: Artifact -> bool): (r: seq<nat>)
    ensures Within(r, |artifacts|)
    ensures forall k :: k in r <==> 0 <= k < |artifacts| && p(artifacts[k])
    ensures forall j, k :: 0 <= j < k < |r| ==> r[j] < r[k]
  {
    if artifacts == [] then []
    else
      var last := |artifacts| - 1;
      var rest := Select(artifacts[..last], p);
      if p(artifacts[last]) then rest + [last] else rest
  }

  /** The background poller: it stops early once the session is finished. */
  function PollAll(c: Case, pending: seq<nat>, answers: nat -> GatewayAnswer): (d: Case)
    requires Within(pending, |c.artifacts|)
    ensures |d.artifacts| == |c.artifacts|
    decreases |pending|
  {
    if pending == [] || c.terminal then c
    else PollAll(Check(c, pending[0], answers(pending[0])), pending[1..], answers)
  }

  function Poll(c: Case, answers: nat -> GatewayAnswer): Case {
    PollAll(c, Select(c.artifacts, Pollable), answers)
  }

  function ForcePaid(c: Case, i: nat): Case {
    if i < |c.artifacts| && CanSimulate(c.artifacts[i]) then
      var d := SimulatePaid(c, i);
      Announce(d, d.artifacts[i])
    else c
  }

  // ----------------------------------------------------------- the sweeper

  /** The sweeper's query on an artifact; the case must also not be in a terminal state. */
  predicate Overdue(a: Artifact, now: Instant) {
    a.acceptPartial && a.deadline.Some? && a.deadline.value <= now && a.followedUpAt.None? && Payable(a)
  }

  function DueAt(now: Instant): Artifact -> bool { (a: Artifact) => Overdue(a, now) }

  function DueNow(c: Case, now: Instant): seq<nat> {
    if TerminalState(c.state) then [] else Select(c.artifacts, DueAt(now))
  }

  /** After polling, is this artifact still owed and the case still open. */
  predicate StillOwed(c: Case, i: nat)
    requires i < |c.artifacts|
  {
    !TerminalState(c.state) && Payable(c.artifacts[i]) && c.balanceDue.GetOr(0) > 0
  }

  function FollowUpDecision(c: Case, now: Instant, policy: Policy): Decision
    requires Valid(policy)
  {
    GateDecision(c, Tool.SendWhatsApp, None, None, None, 0, now, policy)
  }

  function Stamped(c: Case, i: nat, now: Instant): Case
    requires i < |c.artifacts|
  {
    Logged(WithArtifact(c, i, c.artifacts[i].(followedUpAt := Some(now))),
           AuditRow(ExecuteIntervention, InterventionDispatch, None, None, None, Some(i)))
  }

  /** After polling: act on the gate's decision when something is still owed. */
  function ChaseWith(r: Case, i: nat, now: Instant, d: Decision): (n: Case)
    requires i < |r.artifacts|
    ensures |n.artifacts| == |r.artifacts|
  {
    if !StillOwed(r, i) then r
    else if d.allowed then Stamped(GateEffect(r, d), i, now)
    else GateEffect(r, d)
  }

  function Chase(r: Case, i: nat, now: Instant, policy: Policy): (d: Case)
    requires i < |r.artifacts| && Valid(policy)
    ensures |d.artifacts| == |r.artifacts|
  {
    ChaseWith(r, i, now, FollowUpDecision(r, now, policy))
  }

  function ProcessDue(c: Case, i: nat, answer: GatewayAnswer, now: Instant, policy: Policy): (d: Case)
    requires i < |c.artifacts| && Valid(policy)
    ensures |d.artifacts| == |c.artifacts|
  {
    Chase(ReconcileArtifact(c, i, answer), i, now, policy)
  }

  function SweepAll(c: Case, due: seq<nat>, answers: nat -> GatewayAnswer, now: Instant, policy: Policy): (d: Case)
    requires Valid(policy) && Within(due, |c.artifacts|)
    ensures |d.artifacts| == |c.artifacts|
    decreases |due|
  {
    if due == [] then c
    else SweepAll(ProcessDue(c, due[0], answers(due[0]), now, policy), due[1..], answers, now, policy)
  }

  function Sweep(c: Case, answers: nat -> GatewayAnswer, now: Instant, policy: Policy): Case
    requires Valid(policy)
  {
    SweepAll(c, DueNow(c, now), answers, now, policy)
  }

  // ----------------------------------------------------------------- runs

  datatype Event =
    | NewSession
    | Begin(clock: Instant, policy: Policy, env: MintEnv)
    | Message(verdict: Verdict, payload: Payload, reminded: bool, clock: Instant, policy: Policy, env: MintEnv)
    | NamedTool(tool: Tool, request: Option<int>, days: Option<int>, clock: Instant, policy: Policy, env: MintEnv)
    | CallButton(clock: Instant, policy: Policy)
    | Graph(input: GraphInput)
    | Poller(answers: nat -> GatewayAnswer)
    | StatusCheck(answer: GatewayAnswer)
    | ForcedPayment(i: nat)
    | Tick(answers: nat -> GatewayAnswer, now: Instant, policy: Policy)

  /** Policies come from the store, so they are valid; a graph run outside the batch
      tools carries no seeded call count. Nothing else is assumed of an event. */
  predicate Admissible(e: Event) {
    match e
    case Begin(_, policy, _) => Valid(policy)
    case Message(_, _, _, _, policy, _) => Valid(policy)
    case NamedTool(_, _, _, _, policy, _) => Valid(policy)
    case CallButton(_, policy) => Valid(policy)
    case Graph(input) => Valid(input.policy) && input.seededVoice.None?
    case Tick(_, _, policy) => Valid(policy)
    case _ => true
  }

  function Step(c: Case, e: Event): Case
    requires Admissible(e)
  {
    match e
    case NewSession => c.(terminal := false)
    case Begin(clock, policy, env) => Opening(c, clock, policy, env)
    case Message(v, p, reminded, clock, policy, env) => Reply(c, v, p, reminded, clock, policy, env)
    case NamedTool(tool, request, days, clock, policy, env) => ToolCall(c, tool, request, days, clock, policy, env)
    case CallButton(clock, policy) => StartCall(c, clock, policy)
    case Graph(input) => RunGraph(c, input).c
    case Poller(answers) => Poll(c, answers)
    case StatusCheck(answer) => CheckLatest(c, answer)
    case ForcedPayment(i) => ForcePaid(c, i)
    case Tick(answers, now, policy) => Sweep(c, answers, now, policy)
  }

  function Run(c: Case, events: seq<Event>): Case
    requires forall e :: e in events ==> Admissible(e)
  {
    if events == [] then c else Step(Run(c, events[..|events| - 1]), events[|events| - 1])
  }
}
