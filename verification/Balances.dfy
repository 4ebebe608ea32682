/** What a case owes: the balance the ledger books against what was paid on all artifacts,
    and how a case comes to be recovered and owing. */
module Balances {
  import opened Domain
  import opened Policies
  import opened Ledger
  import opened Gates
  import opened Workflow
  import opened Sessions
  import opened Safety
  import opened Runs

  // ------------------------------------------------------- what was paid in all

  function PaidOn(artifacts: seq<Artifact>): int {
    if artifacts == [] then 0 else PaidOn(artifacts[..|artifacts| - 1]) + artifacts[|artifacts| - 1].amountPaid
  }

  /** What was paid on all the artifacts of a case. */
  function SumPaid(c: Case): int { PaidOn(c.artifacts) }

  /** What was paid on the others. */
  function PaidElsewhere(c: Case, i: nat): int
    requires i < |c.artifacts|
  {
    SumPaid(c) - c.artifacts[i].amountPaid
  }

  /** What an answer leaves paid on an artifact; one without a provider is not polled. */
  function PaidAfter(a: Artifact, answer: GatewayAnswer): int {
    if a.providerId.Some? then ReportedPaid(a, answer) else a.amountPaid
  }

  lemma {:induction false} PaidOnUpdated(artifacts: seq<Artifact>, i: nat, a: Artifact)
    requires i < |artifacts|
    ensures PaidOn(artifacts[i := a]) == PaidOn(artifacts) - artifacts[i].amountPaid + a.amountPaid
  {
    var n := |artifacts| - 1;
    if i == n {
      assert artifacts[i := a][..n] == artifacts[..n];
    } else {
      assert artifacts[i := a][..n] == artifacts[..n][i := a];
      PaidOnUpdated(artifacts[..n], i, a);
    }
  }

  lemma PollMovesThePayment(c: Case, i: nat, answer: GatewayAnswer)
    requires i < |c.artifacts|
    ensures SumPaid(ReconcileArtifact(c, i, answer)) == PaidElsewhere(c, i) + PaidAfter(c.artifacts[i], answer)
  {
    var a := if c.artifacts[i].providerId.Some? then Polled(c.artifacts[i], answer) else c.artifacts[i];
    assert ReconcileArtifact(c, i, answer).artifacts == c.artifacts[i := a];
    PaidOnUpdated(c.artifacts, i, a);
  }

  // ------------------------------------------------------- when it is booked

  /** The balance is the bill less everything that was paid. */
  predicate BalanceIsTrue(c: Case) { Balance(c) == MaxInt(c.bill - SumPaid(c), 0) }

  /** After a plan was polled the booked balance is true exactly when nothing was paid on the
      other artifacts, or the plan alone and all of them together reach the bill. */
  lemma PolledBalanceIsTrueExactlyWhen(c: Case, i: nat, answer: GatewayAnswer)
    requires i < |c.artifacts| && PolledPlan(c.artifacts[i])
    ensures var paid := ReportedPaid(c.artifacts[i], answer);
      BalanceIsTrue(ReconcileArtifact(c, i, answer))
      <==> PaidElsewhere(c, i) == 0 || (paid >= c.bill && PaidElsewhere(c, i) + paid >= c.bill)
  {
    PollMovesThePayment(c, i, answer);
    PollOverwritesTheBalance(c, i, answer);
  }

  /** The same of a forced payment of a plan. */
  lemma ForcedBalanceIsTrueExactlyWhen(c: Case, i: nat)
    requires i < |c.artifacts| && CanSimulate(c.artifacts[i]) && c.artifacts[i].acceptPartial
    ensures var paid := c.artifacts[i].amount;
      BalanceIsTrue(SimulatePaid(c, i))
      <==> PaidElsewhere(c, i) == 0 || (paid >= c.bill && PaidElsewhere(c, i) + paid >= c.bill)
  {
    PaidOnUpdated(c.artifacts, i, c.artifacts[i].(status := Paid, amountPaid := c.artifacts[i].amount));
  }

  /** A poll or payment of any other artifact leaves the balance, so it is true exactly when
      what was booked happens to be what is left. */
  lemma UnbookedBalanceIsTrueExactlyWhen(c: Case, i: nat, answer: GatewayAnswer)
    requires i < |c.artifacts| && !PolledPlan(c.artifacts[i])
    ensures BalanceIsTrue(ReconcileArtifact(c, i, answer))
       <==> Balance(c) == MaxInt(c.bill - PaidElsewhere(c, i) - PaidAfter(c.artifacts[i], answer), 0)
  {
    PollMovesThePayment(c, i, answer);
    PollOverwritesTheBalance(c, i, answer);
  }

  // ----------------------------------------------------- recovered and owing

  /** A graph run leaves a case recovered and owing exactly when it dispatched, a settlement
      event came, and the case owed something before. */
  lemma GraphLeavesRecoveredButOwingExactlyWhen(c: Case, g: GraphInput)
    requires Valid(g.policy)
    ensures RecoveredButOwing(RunGraph(c, g).c) <==> Dispatches(c, g) && Settles(g.event) && Balance(c) > 0
  {
    EveryRun(c, g, IsVoiceDispatch);
    RunFromKeepsTheLedger(Some(Ingest), GraphState(c, None, [], []), g);
  }

  lemma EnactRecoversOnlyWhatItLeavesAlone(c: Case, d: Decision, env: MintEnv, clock: Instant)
    requires d.terminalState != Some(Recovered)
    ensures Enact(c, d, env, clock).state.Recovered? ==> Enact(c, d, env, clock) == c
  {
  }

  lemma ReplyLeavesNoneRecoveredButOwing(c: Case, e: Event)
    requires Admissible(e) && e.Message? && RecoveredButOwing(Step(c, e))
    ensures RecoveredButOwing(c)
  {
    if e.verdict.disposition.Continue? {
      EnactRecoversOnlyWhatItLeavesAlone(c, Decide(c, e.payload, e.clock, e.policy), e.env, e.clock);
    }
  }

  lemma ToolLeavesNoneRecoveredButOwing(c: Case, e: Event)
    requires Admissible(e) && e.NamedTool? && RecoveredButOwing(Step(c, e))
    ensures RecoveredButOwing(c)
  {
    GateNeverRecovers(c, e.tool, e.request, None, e.days, VoiceAttempts(c), e.clock, e.policy);
    EnactRecoversOnlyWhatItLeavesAlone(c, ToolDecision(c, e.tool, e.request, e.days, e.clock, e.policy), e.env, e.clock);
  }

  lemma OpeningLeavesNoneRecovered(c: Case, e: Event)
    requires Admissible(e) && e.Begin?
    ensures !Step(c, e).state.Recovered?
  {
    var o := Opened(c);
    EnactRecoversOnlyWhatItLeavesAlone(o, Decide(o, OpeningPayload(c.failureClass), e.clock, e.policy), e.env, e.clock);
  }

  /** Polls, forced payments and the graph aside, no step brings a case there. */
  lemma OtherStepsLeaveNoneRecoveredButOwing(c: Case, e: Event)
    requires Admissible(e)
    requires e.NewSession? || e.Begin? || e.Message? || e.NamedTool? || e.CallButton?
    requires RecoveredButOwing(Step(c, e))
    ensures RecoveredButOwing(c)
  {
    match e
    case NewSession =>
    case Begin(_, _, _) => OpeningLeavesNoneRecovered(c, e);
    case Message(_, _, _, _, _, _) => ReplyLeavesNoneRecoveredButOwing(c, e);
    case NamedTool(_, _, _, _, _, _) => ToolLeavesNoneRecoveredButOwing(c, e);
    case CallButton(clock, policy) => CallButtonWritesOnlyTheAudit(c, clock, policy);
  }
}
