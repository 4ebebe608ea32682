/** What every run keeps, whatever the models, the clients, the gateway, the clock and
    the operators do. */
module Safety {
  import opened Domain
  import opened Policies
  import opened Proposals
  import opened Ledger
  import opened Gates
  import opened Workflow
  import opened Sessions

  // ----------------------------------------------------- the money side

  /** The books after a step: still balanced, on the same bill, and a case that became
      recovered did so on a payment that covers the bill. */
  predicate KeepsBooks(c: Case, d: Case) {
    && d.bill == c.bill && Booked(d) && NewestOpen(d.artifacts)
    && (d.state.Recovered? && !c.state.Recovered? ==> Covered(d))
  }

  lemma CheckKeepsBooks(c: Case, i: nat, answer: GatewayAnswer)
    requires i < |c.artifacts| && Booked(c) && NewestOpen(c.artifacts)
    ensures var d := Check(c, i, answer);
      && KeepsBooks(c, d)
      && (d.state.Recovered? && !c.state.Recovered? ==> d.artifacts[i].amountPaid >= d.bill)
      && (forall k :: 0 <= k < |c.artifacts| && k != i ==> d.artifacts[k] == c.artifacts[k])
  {
    ReconcileKeepsTheBooks(c, i, answer);
  }

  lemma {:induction false} PollKeepsBooks(c: Case, pending: seq<nat>, answers: nat -> GatewayAnswer)
    requires Within(pending, |c.artifacts|) && Booked(c) && NewestOpen(c.artifacts)
    requires forall j, k :: 0 <= j < k < |pending| ==> pending[j] < pending[k]
    ensures var d := PollAll(c, pending, answers);
      && d.bill == c.bill && Booked(d) && NewestOpen(d.artifacts)
      && (forall k :: 0 <= k < |c.artifacts| && k !in pending ==> d.artifacts[k] == c.artifacts[k])
      && (d.state.Recovered? && !c.state.Recovered? ==> Covered(d))
    decreases |pending|
  {
    if pending != [] && !c.terminal {
      var i, rest := pending[0], pending[1..];
      CheckKeepsBooks(c, i, answers(i));
      var mid := Check(c, i, answers(i));
      PollKeepsBooks(mid, rest, answers);
      assert i !in rest;
    }
  }

  /** Chasing a payment stamps one artifact and may defer or escalate the case; it
      never touches an amount. */
  lemma ChaseKeepsBooks(r: Case, i: nat, now: Instant, policy: Policy)
    requires i < |r.artifacts| && Booked(r) && NewestOpen(r.artifacts) && Valid(policy)
    ensures var d := Chase(r, i, now, policy);
      && d.bill == r.bill && Booked(d) && NewestOpen(d.artifacts)
      && (d.state.Recovered? ==> r.state.Recovered?)
      && d.artifacts[i].amountPaid == r.artifacts[i].amountPaid
      && (forall k :: 0 <= k < |r.artifacts| && k != i ==> d.artifacts[k] == r.artifacts[k])
  {
    ApprovalMeansEveryGatePassed(r, Tool.SendWhatsApp, None, None, None, 0, now, policy);
  }

  lemma ProcessKeepsBooks(c: Case, i: nat, answer: GatewayAnswer, now: Instant, policy: Policy)
    requires i < |c.artifacts| && Booked(c) && NewestOpen(c.artifacts) && Valid(policy)
    ensures var d := ProcessDue(c, i, answer, now, policy);
      && KeepsBooks(c, d)
      && (d.state.Recovered? && !c.state.Recovered? ==> d.artifacts[i].amountPaid >= d.bill)
      && (forall k :: 0 <= k < |c.artifacts| && k != i ==> d.artifacts[k] == c.artifacts[k])
  {
    ReconcileKeepsTheBooks(c, i, answer);
    ChaseKeepsBooks(ReconcileArtifact(c, i, answer), i, now, policy);
  }

  lemma {:induction false} SweepKeepsBooks(c: Case, due: seq<nat>, answers: nat -> GatewayAnswer, now: Instant, policy: Policy)
    requires Within(due, |c.artifacts|) && Booked(c) && NewestOpen(c.artifacts) && Valid(policy)
    requires forall j, k :: 0 <= j < k < |due| ==> due[j] < due[k]
    ensures var d := SweepAll(c, due, answers, now, policy);
      && d.bill == c.bill && Booked(d) && NewestOpen(d.artifacts)
      && (forall k :: 0 <= k < |c.artifacts| && k !in due ==> d.artifacts[k] == c.artifacts[k])
      && (d.state.Recovered? && !c.state.Recovered? ==> Covered(d))
    decreases |due|
  {
    if due != [] {
      var i, rest := due[0], due[1..];
      ProcessKeepsBooks(c, i, answers(i), now, policy);
      SweepKeepsBooks(ProcessDue(c, i, answers(i), now, policy), rest, answers, now, policy);
      assert i !in rest;
    }
  }

  lemma MintForKeepsBooks(c: Case, d: Decision, env: MintEnv, clock: Instant)
    requires Booked(c)
    ensures var m := MintFor(c, d, env, clock);
      Booked(m) && NewestOpen(m.artifacts) && m.bill == c.bill && m.state == c.state
  {
    var amount := MintedAmount(d, c.bill);
    var partial := amount < c.bill || d.action == Some(Action.OfferPartialPlan);
    MintKeepsTheBooks(c, RenderKind(d.action, c.failureClass), amount, partial,
                      Some(PlanDeadline(d, env, clock)), env.providerId);
  }

  lemma ApplyKeepsBooks(c: Case, d: Decision, env: MintEnv, clock: Instant)
    requires Booked(c) && NewestOpen(c.artifacts)
    requires d.terminalState != Some(Recovered)
    ensures KeepsBooks(c, ApplyDecision(c, d, env, clock))
  {
    MintForKeepsBooks(c, d, env, clock);
  }

  lemma EnactKeepsBooks(c: Case, d: Decision, env: MintEnv, clock: Instant)
    requires Booked(c) && NewestOpen(c.artifacts)
    requires d.terminalState != Some(Recovered)
    ensures KeepsBooks(c, Enact(c, d, env, clock))
  {
    ApplyKeepsBooks(GateEffect(c, d), d, env, clock);
  }

  lemma GateNeverRecovers(c: Case, tool: Tool, request: Option<int>, discount: Option<real>, days: Option<int>,
                          attempts: int, clock: Instant, policy: Policy)
    requires Valid(policy)
    ensures GateDecision(c, tool, request, discount, days, attempts, clock, policy).terminalState != Some(Recovered)
  {
  }

  // -------------------------------------------------------- the audit side

  /** Handed to a channel: approved, and not lost to a mint that crashed. */
  predicate Dispatched(c: Case, d: Decision, env: MintEnv) {
    d.allowed && d.channel.Some? && !(PaymentAction(d.action) && CancelCrashes(c.artifacts, env.cancelRaises))
  }

  /** A decision adds one dispatch row when it is handed to a channel, and none else. */
  lemma EnactCounts(c: Case, d: Decision, env: MintEnv, clock: Instant, p: AuditRow -> bool)
    requires forall r: AuditRow :: p(r) ==> IsDispatch(r)
    ensures Count(Enact(c, d, env, clock).audit, p)
         == Count(c.audit, p) + if Dispatched(c, d, env) && p(DispatchRow(d.action, d.channel)) then 1 else 0
  {
    var g := GateEffect(c, d);
    GateWritesNoDispatch(c, d, p);
    CountOneMore(g.audit, DispatchRow(d.action, d.channel), p);
  }

  /** Rows that are not dispatches never count. */
  lemma LoggedCounts(c: Case, row: AuditRow, p: AuditRow -> bool)
    requires !IsDispatch(row) && forall r: AuditRow :: p(r) ==> IsDispatch(r)
    ensures Count(Logged(c, row).audit, p) == Count(c.audit, p)
  {
    CountOneMore(c.audit, row, p);
  }

  lemma OpenedCounts(c: Case, p: AuditRow -> bool)
    requires forall r: AuditRow :: p(r) ==> IsDispatch(r)
    ensures Count(Opened(c).audit, p) == Count(c.audit, p)
  {
    LoggedCounts(c, Row(Ingest, StateTransition), p);
    LoggedCounts(Moved(c, Diagnosing, Row(Ingest, StateTransition)), Row(Diagnose, StateTransition), p);
  }

  lemma CheckCounts(c: Case, i: nat, answer: GatewayAnswer, p: AuditRow -> bool)
    requires i < |c.artifacts|
    requires forall r: AuditRow :: p(r) ==> IsDispatch(r)
    ensures Count(Check(c, i, answer).audit, p) == Count(c.audit, p)
  {
    LoggedCounts(ReconcileArtifact(c, i, answer), Row(Reconcile, StateTransition), p);
  }

  lemma {:induction false} PollCounts(c: Case, pending: seq<nat>, answers: nat -> GatewayAnswer, p: AuditRow -> bool)
    requires Within(pending, |c.artifacts|)
    requires forall r: AuditRow :: p(r) ==> IsDispatch(r)
    ensures Count(PollAll(c, pending, answers).audit, p) == Count(c.audit, p)
    decreases |pending|
  {
    if pending != [] && !c.terminal {
      CheckCounts(c, pending[0], answers(pending[0]), p);
      PollCounts(Check(c, pending[0], answers(pending[0])), pending[1..], answers, p);
    }
  }

  // ---------------------------------------------------- the voice-call cap

  lemma DecisionRespectsVoiceCap(c: Case, tool: Tool, request: Option<int>, discount: Option<real>, days: Option<int>,
                                 clock: Instant, policy: Policy, env: MintEnv)
    requires Valid(policy)
    ensures var d := GateDecision(c, tool, request, discount, days, VoiceAttempts(c), clock, policy);
      VoiceAttempts(Enact(c, d, env, clock)) <= MaxInt(VoiceAttempts(c), VOICE_ATTEMPT_CAP)
  {
    var d := GateDecision(c, tool, request, discount, days, VoiceAttempts(c), clock, policy);
    EnactCounts(c, d, env, clock, IsVoiceDispatch);
    if Resolve(tool).1.Some? {
      ApprovalMeansEveryGatePassed(c, tool, request, discount, days, VoiceAttempts(c), clock, policy);
    }
  }

  lemma ReplyRespectsVoiceCap(c: Case, v: Verdict, p: Payload, reminded: bool, clock: Instant, policy: Policy, env: MintEnv)
    requires Valid(policy)
    ensures VoiceAttempts(Reply(c, v, p, reminded, clock, policy, env)) <= MaxInt(VoiceAttempts(c), VOICE_ATTEMPT_CAP)
  {
    if !v.disposition.Continue? {
      LoggedCounts(c, AuditRow(Ingest, StateTransition, None, None, v.rule, None), IsVoiceDispatch);
    } else {
      var tool := Redirected(p.tool, Nudges(c), VoiceAttempts(c), policy);
      DecisionRespectsVoiceCap(c, tool, Request(tool, p.amountInr, c.bill), p.discountPct,
                               ClampDeadline(p.deadlineDays), clock, policy, env);
      LoggedCounts(Enact(c, Decide(c, p, clock, policy), env, clock), Row(Ingest, StateTransition), IsVoiceDispatch);
    }
  }

  lemma OpeningRespectsVoiceCap(c: Case, clock: Instant, policy: Policy, env: MintEnv)
    requires Valid(policy)
    ensures VoiceAttempts(Opening(c, clock, policy, env)) <= MaxInt(VoiceAttempts(c), VOICE_ATTEMPT_CAP)
  {
    var o, p := Opened(c), OpeningPayload(c.failureClass);
    OpenedCounts(c, IsVoiceDispatch);
    var tool := Redirected(p.tool, Nudges(o), VoiceAttempts(o), policy);
    DecisionRespectsVoiceCap(o, tool, Request(tool, None, c.bill), None, None, clock, policy, env);
  }

  lemma CallButtonRespectsVoiceCap(c: Case, clock: Instant, policy: Policy)
    requires Valid(policy)
    ensures VoiceAttempts(StartCall(c, clock, policy)) <= MaxInt(VoiceAttempts(c), VOICE_ATTEMPT_CAP)
  {
    var d := StartCall(c, clock, policy);
    CountOneMore(c.audit, d.audit[|c.audit|], IsVoiceDispatch);
    assert d.audit == c.audit + [d.audit[|c.audit|]];
  }

  lemma GraphRespectsVoiceCap(c: Case, g: GraphInput)
    requires Valid(g.policy) && g.seededVoice.None?
    ensures VoiceAttempts(RunGraph(c, g).c) <= MaxInt(VoiceAttempts(c), VOICE_ATTEMPT_CAP)
  {
    EveryRun(c, g, IsVoiceDispatch);
  }

  lemma ChaseCounts(r: Case, i: nat, now: Instant, d: Decision, p: AuditRow -> bool)
    requires i < |r.artifacts|
    requires forall r: AuditRow :: p(r) ==> IsDispatch(r)
    ensures Count(ChaseWith(r, i, now, d).audit, p)
         == Count(r.audit, p) + if StillOwed(r, i) && d.allowed && p(FollowUpRow(i)) then 1 else 0
  {
    GateWritesNoDispatch(r, d, p);
    CountOneMore(GateEffect(r, d).audit, FollowUpRow(i), p);
  }

  lemma ProcessCounts(c: Case, i: nat, answer: GatewayAnswer, now: Instant, policy: Policy, p: AuditRow -> bool)
    requires i < |c.artifacts| && Valid(policy)
    requires forall r: AuditRow :: p(r) ==> IsDispatch(r)
    ensures Count(ProcessDue(c, i, answer, now, policy).audit, p)
         == Count(c.audit, p)
          + if FollowsUp(c, i, answer, now, policy) && p(FollowUpRow(i)) then 1 else 0
  {
    var r := ReconcileArtifact(c, i, answer);
    ChaseCounts(r, i, now, FollowUpDecision(r, now, policy), p);
    assert r.audit == c.audit;
  }

  lemma {:induction false} SweepAddsNoCalls(c: Case, due: seq<nat>, answers: nat -> GatewayAnswer, now: Instant, policy: Policy)
    requires Within(due, |c.artifacts|) && Valid(policy)
    ensures VoiceAttempts(SweepAll(c, due, answers, now, policy)) == VoiceAttempts(c)
    decreases |due|
  {
    if due != [] {
      ProcessCounts(c, due[0], answers(due[0]), now, policy, IsVoiceDispatch);
      SweepAddsNoCalls(ProcessDue(c, due[0], answers(due[0]), now, policy), due[1..], answers, now, policy);
    }
  }

  // ------------------------------------------------------ deadline follow-ups

  function FollowUpRow(i: nat): AuditRow {
    AuditRow(ExecuteIntervention, InterventionDispatch, None, None, None, Some(i))
  }

  /** The sweeper writes to the customer about artifact `i`. */
  predicate FollowsUp(c: Case, i: nat, answer: GatewayAnswer, now: Instant, policy: Policy)
    requires i < |c.artifacts| && Valid(policy)
  {
    var r := ReconcileArtifact(c, i, answer);
    StillOwed(r, i) && FollowUpDecision(r, now, policy).allowed
  }

  /** It does so exactly when, after polling, the case is open, the artifact is payable
      and a balance is left, outside quiet hours, and the policy permits the message. */
  lemma FollowsUpExactlyWhen(c: Case, i: nat, answer: GatewayAnswer, now: Instant, policy: Policy)
    requires i < |c.artifacts| && Valid(policy)
    ensures var r := ReconcileArtifact(c, i, answer);
      FollowsUp(c, i, answer, now, policy) <==>
        && !TerminalState(r.state) && Payable(r.artifacts[i]) && r.balanceDue.GetOr(0) > 0
        && !QuietHours(now)
        && Action.SendWhatsApp in policy.actions && WhatsApp in policy.channels
    ensures var d := ProcessDue(c, i, answer, now, policy);
      FollowsUp(c, i, answer, now, policy) <==> FollowUps(d, i) == FollowUps(c, i) + 1
  {
    var r := ReconcileArtifact(c, i, answer);
    ApprovalMeansEveryGatePassed(r, Tool.SendWhatsApp, None, None, None, 0, now, policy);
    ProcessCounts(c, i, answer, now, policy, FollowUpOf(i));
  }

  /** A follow-up that was sent was due: a plan's artifact, past its deadline, by day. */
  predicate ChasedFairly(a: Artifact) {
    a.followedUpAt.Some? ==>
      a.acceptPartial && a.deadline.Some? && a.deadline.value <= a.followedUpAt.value && !QuietHours(a.followedUpAt.value)
  }

  predicate Stamp(c: Case, i: nat) { i < |c.artifacts| && c.artifacts[i].followedUpAt.Some? }

  /** Each artifact carries as many follow-ups as it has stamps: one or none. */
  ghost predicate Chased(c: Case) {
    && (forall i: nat :: FollowUps(c, i) == if Stamp(c, i) then 1 else 0)
    && (forall i :: 0 <= i < |c.artifacts| ==> ChasedFairly(c.artifacts[i]))
  }

  /** Nothing a step did concerns follow-ups. */
  predicate NoChase(c: Case, d: Case) {
    && |c.artifacts| <= |d.artifacts|
    && (forall i :: 0 <= i < |d.artifacts| ==>
          if i < |c.artifacts|
          then && d.artifacts[i].followedUpAt == c.artifacts[i].followedUpAt
               && d.artifacts[i].deadline == c.artifacts[i].deadline
               && d.artifacts[i].acceptPartial == c.artifacts[i].acceptPartial
          else d.artifacts[i].followedUpAt.None?)
  }

  ghost predicate SameFollowUps(c: Case, d: Case) {
    forall i: nat :: FollowUps(d, i) == FollowUps(c, i)
  }

  lemma NoChaseKeepsChased(c: Case, d: Case)
    requires Chased(c) && NoChase(c, d) && SameFollowUps(c, d)
    ensures Chased(d)
  {
    forall i: nat
      ensures FollowUps(d, i) == if Stamp(d, i) then 1 else 0
    {
      assert Stamp(d, i) == Stamp(c, i);
    }
  }

  lemma EnactLeavesFollowUps(c: Case, d: Decision, env: MintEnv, clock: Instant)
    ensures NoChase(c, Enact(c, d, env, clock))
  {
  }

  lemma EnactChasesNobody(c: Case, d: Decision, env: MintEnv, clock: Instant)
    ensures NoChase(c, Enact(c, d, env, clock)) && SameFollowUps(c, Enact(c, d, env, clock))
  {
    EnactLeavesFollowUps(c, d, env, clock);
    forall i: nat
      ensures FollowUps(Enact(c, d, env, clock), i) == FollowUps(c, i)
    {
      EnactCounts(c, d, env, clock, FollowUpOf(i));
    }
  }

  lemma CheckChasesNobody(c: Case, i: nat, answer: GatewayAnswer)
    requires i < |c.artifacts|
    ensures NoChase(c, Check(c, i, answer))
  {
    ReconcileArtifacts(c, i, answer);
    assert Check(c, i, answer).artifacts == ReconcileArtifact(c, i, answer).artifacts;
  }

  lemma {:induction false} PollChasesNobody(c: Case, pending: seq<nat>, answers: nat -> GatewayAnswer)
    requires Within(pending, |c.artifacts|)
    ensures NoChase(c, PollAll(c, pending, answers)) && SameFollowUps(c, PollAll(c, pending, answers))
    decreases |pending|
  {
    forall i: nat
      ensures FollowUps(PollAll(c, pending, answers), i) == FollowUps(c, i)
    {
      PollCounts(c, pending, answers, FollowUpOf(i));
    }
    if pending != [] && !c.terminal {
      CheckChasesNobody(c, pending[0], answers(pending[0]));
      PollChasesNobody(Check(c, pending[0], answers(pending[0])), pending[1..], answers);
    }
  }

  /** The sweeper chases an artifact at most once: it stamps what it chases, and it only
      looks at what carries no stamp. */
  lemma ProcessKeepsChased(c: Case, i: nat, answer: GatewayAnswer, now: Instant, policy: Policy)
    requires i < |c.artifacts| && Valid(policy) && Chased(c)
    requires c.artifacts[i].followedUpAt.None? && c.artifacts[i].acceptPartial
    requires c.artifacts[i].deadline.Some? && c.artifacts[i].deadline.value <= now
    ensures Chased(ProcessDue(c, i, answer, now, policy))
  {
    var d := ProcessDue(c, i, answer, now, policy);
    FollowsUpExactlyWhen(c, i, answer, now, policy);
    ProcessArtifacts(c, i, answer, now, policy);
    forall k: nat
      ensures FollowUps(d, k) == if Stamp(d, k) then 1 else 0
    {
      ProcessCounts(c, i, answer, now, policy, FollowUpOf(k));
      assert FollowUps(c, k) == if Stamp(c, k) then 1 else 0;
    }
  }

  lemma ReconcileArtifacts(c: Case, i: nat, answer: GatewayAnswer)
    requires i < |c.artifacts|
    ensures var d := ReconcileArtifact(c, i, answer);
      && d.artifacts == c.artifacts[i := d.artifacts[i]]
      && d.artifacts[i].acceptPartial == c.artifacts[i].acceptPartial
      && d.artifacts[i].deadline == c.artifacts[i].deadline
      && d.artifacts[i].followedUpAt == c.artifacts[i].followedUpAt
  {
  }

  lemma ChaseArtifacts(r: Case, i: nat, now: Instant, policy: Policy)
    requires i < |r.artifacts| && Valid(policy)
    ensures var d := Chase(r, i, now, policy);
      d.artifacts
      == if StillOwed(r, i) && FollowUpDecision(r, now, policy).allowed
         then r.artifacts[i := r.artifacts[i].(followedUpAt := Some(now))]
         else r.artifacts
  {
  }

  /** The artifacts after the sweeper dealt with one of them. */
  lemma ProcessArtifacts(c: Case, i: nat, answer: GatewayAnswer, now: Instant, policy: Policy)
    requires i < |c.artifacts| && Valid(policy)
    ensures var d := ProcessDue(c, i, answer, now, policy);
      && (forall k :: 0 <= k < |c.artifacts| && k != i ==> d.artifacts[k] == c.artifacts[k])
      && d.artifacts[i].acceptPartial == c.artifacts[i].acceptPartial
      && d.artifacts[i].deadline == c.artifacts[i].deadline
      && d.artifacts[i].followedUpAt
         == (if FollowsUp(c, i, answer, now, policy) then Some(now) else c.artifacts[i].followedUpAt)
  {
    ReconcileArtifacts(c, i, answer);
    ChaseArtifacts(ReconcileArtifact(c, i, answer), i, now, policy);
  }

  lemma {:induction false} SweepKeepsChased(c: Case, due: seq<nat>, answers: nat -> GatewayAnswer, now: Instant, policy: Policy)
    requires Within(due, |c.artifacts|) && Valid(policy) && Chased(c)
    requires forall j, k :: 0 <= j < k < |due| ==> due[j] < due[k]
    requires forall k :: k in due ==> Overdue(c.artifacts[k], now)
    ensures Chased(SweepAll(c, due, answers, now, policy))
    decreases |due|
  {
    if due != [] {
      var i, rest := due[0], due[1..];
      ProcessKeepsChased(c, i, answers(i), now, policy);
      ProcessArtifacts(c, i, answers(i), now, policy);
      assert i !in rest;
      SweepKeepsChased(ProcessDue(c, i, answers(i), now, policy), rest, answers, now, policy);
    }
  }
}
