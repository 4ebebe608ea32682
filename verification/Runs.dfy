/** Safety over whole runs: any sequence of entry points, in any order. */
module Runs {
  import opened Domain
  import opened Policies
  import opened Ledger
  import opened Gates
  import opened Workflow
  import opened Sessions
  import opened Safety

  // -------------------------------------------------------------- one step

  lemma OpeningKeepsBooks(c: Case, clock: Instant, policy: Policy, env: MintEnv)
    requires Valid(policy) && Booked(c) && NewestOpen(c.artifacts)
    ensures KeepsBooks(c, Opening(c, clock, policy, env))
  {
    var o, p := Opened(c), OpeningPayload(c.failureClass);
    EnactKeepsBooks(o, Decide(o, p, clock, policy), env, clock);
  }

  lemma DecideNeverRecovers(c: Case, p: Payload, clock: Instant, policy: Policy)
    requires Valid(policy)
    ensures Decide(c, p, clock, policy).terminalState != Some(Recovered)
  {
  }

  lemma StoppedReplyKeepsBooks(c: Case, v: Verdict)
    requires Booked(c) && NewestOpen(c.artifacts)
    ensures KeepsBooks(c, ScreenedStop(c, v))
  {
  }

  lemma ReplyKeepsBooks(c: Case, v: Verdict, p: Payload, reminded: bool, clock: Instant, policy: Policy, env: MintEnv)
    requires Valid(policy) && Booked(c) && NewestOpen(c.artifacts)
    ensures KeepsBooks(c, Reply(c, v, p, reminded, clock, policy, env))
  {
    if v.disposition.Continue? {
      DecideNeverRecovers(c, p, clock, policy);
      EnactKeepsBooks(c, Decide(c, p, clock, policy), env, clock);
    } else {
      StoppedReplyKeepsBooks(c, v);
    }
  }

  lemma ToolCallKeepsBooks(c: Case, tool: Tool, request: Option<int>, days: Option<int>, clock: Instant, policy: Policy,
                           env: MintEnv)
    requires Valid(policy) && Booked(c) && NewestOpen(c.artifacts)
    ensures KeepsBooks(c, ToolCall(c, tool, request, days, clock, policy, env))
  {
    GateNeverRecovers(c, tool, request, None, days, VoiceAttempts(c), clock, policy);
    EnactKeepsBooks(c, ToolDecision(c, tool, request, days, clock, policy), env, clock);
  }

  lemma ForcedPaymentKeepsBooks(c: Case, i: nat)
    requires Booked(c) && NewestOpen(c.artifacts)
    ensures KeepsBooks(c, ForcePaid(c, i))
  {
    if i < |c.artifacts| && CanSimulate(c.artifacts[i]) {
      SimulatedPaymentKeepsTheBooks(c, i);
    }
  }

  lemma CallButtonWritesOnlyTheAudit(c: Case, clock: Instant, policy: Policy)
    requires Valid(policy)
    ensures var d := StartCall(c, clock, policy);
      && d == c.(audit := d.audit, tickets := d.tickets)
      && |d.audit| == |c.audit| + 1 && d.audit == c.audit + [d.audit[|c.audit|]]
      && d.audit[|c.audit|].followUp.None?
  {
  }

  lemma StepKeepsBooks(c: Case, e: Event)
    requires Admissible(e) && Booked(c) && NewestOpen(c.artifacts)
    ensures var d := Step(c, e);
      && d.bill == c.bill && Booked(d) && NewestOpen(d.artifacts)
      && (d.state.Recovered? && !c.state.Recovered? && !e.Graph? ==> Covered(d))
  {
    match e
    case NewSession =>
    case Begin(clock, policy, env) => OpeningKeepsBooks(c, clock, policy, env);
    case Message(v, p, reminded, clock, policy, env) => ReplyKeepsBooks(c, v, p, reminded, clock, policy, env);
    case NamedTool(tool, request, days, clock, policy, env) => ToolCallKeepsBooks(c, tool, request, days, clock, policy, env);
    case CallButton(clock, policy) => CallButtonWritesOnlyTheAudit(c, clock, policy);
    case Graph(input) => RunFromKeepsTheLedger(Some(Ingest), GraphState(c, None, [], []), input);
    case Poller(answers) => PollKeepsBooks(c, Select(c.artifacts, Pollable), answers);
    case StatusCheck(answer) =>
      if c.artifacts != [] {
        CheckKeepsBooks(c, |c.artifacts| - 1, answer);
      }
    case ForcedPayment(i) => ForcedPaymentKeepsBooks(c, i);
    case Tick(answers, now, policy) => SweepKeepsBooks(c, DueNow(c, now), answers, now, policy);
  }

  lemma StepRespectsVoiceCap(c: Case, e: Event)
    requires Admissible(e)
    ensures VoiceAttempts(Step(c, e)) <= MaxInt(VoiceAttempts(c), VOICE_ATTEMPT_CAP)
  {
    match e
    case NewSession =>
    case Begin(clock, policy, env) => OpeningRespectsVoiceCap(c, clock, policy, env);
    case Message(v, p, reminded, clock, policy, env) => ReplyRespectsVoiceCap(c, v, p, reminded, clock, policy, env);
    case NamedTool(tool, request, days, clock, policy, env) =>
      DecisionRespectsVoiceCap(c, tool, request, None, days, clock, policy, env);
    case CallButton(clock, policy) => CallButtonRespectsVoiceCap(c, clock, policy);
    case Graph(input) => GraphRespectsVoiceCap(c, input);
    case Poller(answers) => PollCounts(c, Select(c.artifacts, Pollable), answers, IsVoiceDispatch);
    case StatusCheck(answer) =>
      if c.artifacts != [] {
        CheckCounts(c, |c.artifacts| - 1, answer, IsVoiceDispatch);
      }
    case ForcedPayment(i) => ForcedPaymentCounts(c, i, IsVoiceDispatch);
    case Tick(answers, now, policy) => SweepAddsNoCalls(c, DueNow(c, now), answers, now, policy);
  }

  lemma ForcedPaymentCounts(c: Case, i: nat, p: AuditRow -> bool)
    requires forall r: AuditRow :: p(r) ==> IsDispatch(r)
    ensures Count(ForcePaid(c, i).audit, p) == Count(c.audit, p)
  {
    if i < |c.artifacts| && CanSimulate(c.artifacts[i]) {
      LoggedCounts(SimulatePaid(c, i), Row(Reconcile, StateTransition), p);
    }
  }

  lemma ReplyChasesNobody(c: Case, v: Verdict, p: Payload, reminded: bool, clock: Instant, policy: Policy, env: MintEnv)
    requires Valid(policy)
    ensures NoChase(c, Reply(c, v, p, reminded, clock, policy, env))
    ensures SameFollowUps(c, Reply(c, v, p, reminded, clock, policy, env))
  {
    var d := Decide(c, p, clock, policy);
    EnactChasesNobody(c, d, env, clock);
    forall i: nat ensures FollowUps(Reply(c, v, p, reminded, clock, policy, env), i) == FollowUps(c, i) {
      LoggedCounts(c, AuditRow(Ingest, StateTransition, None, None, v.rule, None), FollowUpOf(i));
      LoggedCounts(Enact(c, d, env, clock), Row(Ingest, StateTransition), FollowUpOf(i));
      assert FollowUps(Enact(c, d, env, clock), i) == FollowUps(c, i);
    }
  }

  lemma OpeningChasesNobody(c: Case, clock: Instant, policy: Policy, env: MintEnv)
    requires Valid(policy)
    ensures NoChase(c, Opening(c, clock, policy, env)) && SameFollowUps(c, Opening(c, clock, policy, env))
  {
    var o := Opened(c);
    var d := Decide(o, OpeningPayload(c.failureClass), clock, policy);
    EnactChasesNobody(o, d, env, clock);
    forall i: nat ensures FollowUps(Enact(o, d, env, clock), i) == FollowUps(c, i) {
      OpenedCounts(c, FollowUpOf(i));
      assert FollowUps(Enact(o, d, env, clock), i) == FollowUps(o, i);
    }
  }

  lemma GraphChasesNobody(c: Case, g: GraphInput)
    requires Valid(g.policy)
    ensures NoChase(c, RunGraph(c, g).c) && SameFollowUps(c, RunGraph(c, g).c)
  {
    RunFromKeepsTheLedger(Some(Ingest), GraphState(c, None, [], []), g);
    forall i: nat ensures FollowUps(RunGraph(c, g).c, i) == FollowUps(c, i) {
      EveryRun(c, g, FollowUpOf(i));
    }
  }

  lemma CallButtonChasesNobody(c: Case, clock: Instant, policy: Policy)
    requires Valid(policy)
    ensures NoChase(c, StartCall(c, clock, policy)) && SameFollowUps(c, StartCall(c, clock, policy))
  {
    var d := StartCall(c, clock, policy);
    CallButtonWritesOnlyTheAudit(c, clock, policy);
    forall i: nat ensures FollowUps(d, i) == FollowUps(c, i) {
      CountOneMore(c.audit, d.audit[|c.audit|], FollowUpOf(i));
    }
  }

  lemma ForcedPaymentChasesNobody(c: Case, k: nat)
    ensures NoChase(c, ForcePaid(c, k)) && SameFollowUps(c, ForcePaid(c, k))
  {
    forall i: nat ensures FollowUps(ForcePaid(c, k), i) == FollowUps(c, i) {
      ForcedPaymentCounts(c, k, FollowUpOf(i));
    }
  }

  lemma StatusCheckChasesNobody(c: Case, answer: GatewayAnswer)
    ensures NoChase(c, CheckLatest(c, answer)) && SameFollowUps(c, CheckLatest(c, answer))
  {
    if c.artifacts != [] {
      CheckChasesNobody(c, |c.artifacts| - 1, answer);
      forall i: nat ensures FollowUps(CheckLatest(c, answer), i) == FollowUps(c, i) {
        CheckCounts(c, |c.artifacts| - 1, answer, FollowUpOf(i));
      }
    }
  }

  /** Steps other than a tick of the sweeper neither send nor stamp a follow-up. */
  lemma OtherStepsChaseNobody(c: Case, e: Event)
    requires Admissible(e) && !e.Tick?
    ensures NoChase(c, Step(c, e)) && SameFollowUps(c, Step(c, e))
  {
    match e
    case NewSession =>
    case Begin(clock, policy, env) => OpeningChasesNobody(c, clock, policy, env);
    case Message(v, p, reminded, clock, policy, env) => ReplyChasesNobody(c, v, p, reminded, clock, policy, env);
    case NamedTool(tool, request, days, clock, policy, env) =>
      EnactChasesNobody(c, ToolDecision(c, tool, request, days, clock, policy), env, clock);
    case CallButton(clock, policy) => CallButtonChasesNobody(c, clock, policy);
    case Graph(input) => GraphChasesNobody(c, input);
    case Poller(answers) => PollChasesNobody(c, Select(c.artifacts, Pollable), answers);
    case StatusCheck(answer) => StatusCheckChasesNobody(c, answer);
    case ForcedPayment(k) => ForcedPaymentChasesNobody(c, k);
  }

  lemma StepKeepsChased(c: Case, e: Event)
    requires Admissible(e) && Chased(c)
    ensures Chased(Step(c, e))
  {
    if e.Tick? {
      SweepKeepsChased(c, DueNow(c, e.now), e.answers, e.now, e.policy);
    } else {
      OtherStepsChaseNobody(c, e);
      NoChaseKeepsChased(c, Step(c, e));
    }
  }

  // ------------------------------------------------------------- every run

  /** What holds between any two entry points, with `calls` the calls already made
      before the run began. */
  ghost predicate Safe(c: Case, calls: nat) {
    && Booked(c) && NewestOpen(c.artifacts) && Chased(c)
    && VoiceAttempts(c) <= MaxInt(calls, VOICE_ATTEMPT_CAP)
  }

  /** A case before anything was minted, with the dispatches of earlier calls only. */
  lemma FreshCaseIsSafe(c: Case)
    requires c.artifacts == [] && forall k :: 0 <= k < |c.audit| ==> c.audit[k].followUp.None?
    ensures Safe(c, VoiceAttempts(c))
  {
    forall i: nat ensures FollowUps(c, i) == 0 {
      NoFollowUps(c.audit, i);
    }
  }

  lemma {:induction false} NoFollowUps(rows: seq<AuditRow>, i: nat)
    requires forall k :: 0 <= k < |rows| ==> rows[k].followUp.None?
    ensures Count(rows, FollowUpOf(i)) == 0
  {
    if rows != [] {
      NoFollowUps(rows[..|rows| - 1], i);
    }
  }

  /** Every run keeps the books balanced, the newest artifact the only one awaiting a
      first payment, every follow-up due and sent once, and calls within the cap. */
  lemma {:induction false} EveryRunIsSafe(c: Case, events: seq<Event>, calls: nat)
    requires (forall e :: e in events ==> Admissible(e)) && Safe(c, calls)
    ensures Safe(Run(c, events), calls) && Run(c, events).bill == c.bill
  {
    if events != [] {
      var before, e := events[..|events| - 1], events[|events| - 1];
      EveryRunIsSafe(c, before, calls);
      var mid := Run(c, before);
      StepKeepsBooks(mid, e);
      StepKeepsChased(mid, e);
      StepRespectsVoiceCap(mid, e);
    }
  }

  /** If this event recovers the case, then some artifact was paid at least the whole
      bill or, in the graph, a dispatch was answered by a settlement event. */
  predicate RecoversOnlyWhenPaid(c: Case, e: Event)
    requires Admissible(e)
  {
    !c.state.Recovered? && Step(c, e).state.Recovered? ==>
      if e.Graph? then Settles(e.input.event) && Dispatches(c, e.input) else Covered(Step(c, e))
  }

  lemma BalancedBooksRecoverOnlyWhenPaid(c: Case, e: Event)
    requires Admissible(e) && Booked(c) && NewestOpen(c.artifacts)
    ensures RecoversOnlyWhenPaid(c, e) && Step(c, e).bill == c.bill
  {
    StepKeepsBooks(c, e);
    if e.Graph? {
      EveryRun(c, e.input, IsVoiceDispatch);
    }
  }

  /** In every run, after any events, whatever comes next recovers the case only when it
      is paid for. */
  lemma RecoveryIsPaidFor(c: Case, events: seq<Event>, e: Event, calls: nat)
    requires (forall x :: x in events ==> Admissible(x)) && Admissible(e) && Safe(c, calls)
    ensures RecoversOnlyWhenPaid(Run(c, events), e) && Step(Run(c, events), e).bill == c.bill
  {
    EveryRunIsSafe(c, events, calls);
    BalancedBooksRecoverOnlyWhenPaid(Run(c, events), e);
  }

  predicate OneOpenAndOneFollowUp(d: Case, i: nat, j: nat) {
    && (i < j < |d.artifacts| ==> !d.artifacts[i].status.Created?)
    && (d.artifacts != [] ==> !d.artifacts[|d.artifacts| - 1].status.Closed?)
    && FollowUps(d, i) <= 1
  }

  lemma SafeMeansOneOpen(d: Case, calls: nat, i: nat, j: nat)
    requires Safe(d, calls)
    ensures OneOpenAndOneFollowUp(d, i, j)
  {
    assert FollowUps(d, i) == if Stamp(d, i) then 1 else 0;
  }

  /** At every moment at most one artifact awaits its first payment, the newest is never
      a superseded one, and no artifact is written to the customer about twice. */
  lemma AtMostOneOpenAndOneFollowUp(c: Case, events: seq<Event>, calls: nat, i: nat, j: nat)
    requires (forall e :: e in events ==> Admissible(e)) && Safe(c, calls)
    ensures OneOpenAndOneFollowUp(Run(c, events), i, j)
  {
    EveryRunIsSafe(c, events, calls);
    SafeMeansOneOpen(Run(c, events), calls, i, j);
  }
}
