/** The recovery graph: five nodes, three routing functions, and one run through them. */
module Workflow {
  import opened Domain
  import opened Policies
  import opened Ledger
  import opened Gates

  /** What one invocation of the graph is given. The verdict stands for the reading of
      the customer's message (Continue when there is none), the playbook for the
      diagnosis after any override, `event` for the settlement event. `dispatchRaises` says
      whether handing the action to its channel fails. */
  datatype GraphInput = GraphInput(
    verdict: Verdict,
    playbook: Playbook,
    discount: Option<real>,
    event: Option<string>,
    seededVoice: Option<int>,
    dispatchRaises: bool,
    clock: Instant,
    policy: Policy
  )

  /** The case, the graph's own disposition, the actions handed to a channel, and the
      nodes visited. */
  datatype GraphState = GraphState(
    c: Case,
    disposition: Option<LifecycleState>,
    sent: seq<Action>,
    visited: seq<NodeName>
  )

  predicate Settles(event: Option<string>) {
    event == Some("payment.captured") || event == Some("payment.authorized")
  }

  function Finalized(c: Case, state: LifecycleState, node: NodeName, rule: Option<StoppingRule>): Case {
    Moved(c, state, AuditRow(node, StateTransition, None, None, rule, None))
  }

  function IngestNode(c: Case, verdict: Verdict): (Case, Option<LifecycleState>) {
    var started := Moved(c, Diagnosing, Row(Ingest, StateTransition));
    match verdict.disposition
    case Terminate => (Finalized(started, Cancelled, Ingest, verdict.rule), Some(Cancelled))
    case Escalate =>
      (Finalized(started.(tickets := c.tickets + 1), Escalated, Ingest, verdict.rule), Some(Escalated))
    case Continue => (started, None)
  }

  function DiagnoseNode(c: Case): Case { Logged(c, Row(Diagnose, StateTransition)) }

  function WaitNode(c: Case): Case { Moved(c, Waiting, Row(Wait, RetryScheduled)) }

  function GraphGate(c: Case, g: GraphInput): Outcome
    requires Valid(g.policy)
  {
    var attempts := g.seededVoice.GetOr(VoiceAttempts(c));
    var outcome := ExecuteGate(g.playbook, c.bill, c.retryCount, attempts, g.discount, g.clock, g.policy);
    if outcome.Cleared? && g.dispatchRaises then Raised else outcome
  }

  function DispatchRow(action: Option<Action>, channel: Option<Channel>): AuditRow {
    AuditRow(ExecuteIntervention, InterventionDispatch, action, channel, None, None)
  }

  /** The execute step, given what comes of the gates. A dispatch that raises ends the run
      with the state already committed and no row written. */
  function ActOn(c: Case, playbook: Playbook, outcome: Outcome): (Case, Option<LifecycleState>, seq<Action>) {
    var (action, channel) := PlaybookAction(playbook);
    match outcome
    case Halted(rule) =>
      if rule.TraiQuietHours? then
        (Moved(c, Waiting, AuditRow(ExecuteIntervention, RetryScheduled, None, None, Some(rule), None)), Some(Waiting), [])
      else
        (Finalized(c, Cancelled, ExecuteIntervention, Some(rule)), Some(Cancelled), [])
    case Blocked =>
      (Finalized(c.(tickets := c.tickets + 1), Escalated, ExecuteIntervention, None), Some(Escalated), [])
    case Cleared =>
      (Moved(c, Intervening, DispatchRow(Some(action), channel)), None, [action])
    case Raised =>
      (c.(state := Intervening), Some(Intervening), [])
  }

  function ExecuteNode(c: Case, g: GraphInput): (Case, Option<LifecycleState>, seq<Action>)
    requires Valid(g.policy)
  {
    ActOn(c, g.playbook, GraphGate(c, g))
  }

  function ReconcileNode(c: Case, event: Option<string>): (Case, Option<LifecycleState>) {
    if Settles(event) then (Finalized(c, Recovered, Reconcile, None), Some(Recovered))
    else (Logged(c, Row(Reconcile, StateTransition)), None)
  }

  /** Run one node, given what the gates would say. */
  function VisitWith(node: NodeName, s: GraphState, g: GraphInput, outcome: Outcome): GraphState {
    var seen := s.visited + [node];
    match node
    case Ingest => var (c, d) := IngestNode(s.c, g.verdict); s.(c := c, disposition := d, visited := seen)
    case Diagnose => s.(c := DiagnoseNode(s.c), visited := seen)
    case Wait => s.(c := WaitNode(s.c), visited := seen)
    case ExecuteIntervention =>
      var (c, d, sent) := ActOn(s.c, g.playbook, outcome);
      s.(c := c, disposition := d, sent := s.sent + sent, visited := seen)
    case Reconcile =>
      var (c, d) := ReconcileNode(s.c, g.event); s.(c := c, disposition := d, visited := seen)
  }

  function Visit(node: NodeName, s: GraphState, g: GraphInput): GraphState
    requires Valid(g.policy)
  {
    VisitWith(node, s, g, GraphGate(s.c, g))
  }

  /** The edges of the graph; no successor is its end. */
  function Next(node: NodeName, disposition: Option<LifecycleState>, playbook: Playbook): Option<NodeName> {
    match node
    case Ingest => if disposition.Some? then None else Some(Diagnose)
    case Diagnose => if playbook.SalaryCycleSequencer? then Some(Wait) else Some(ExecuteIntervention)
    case Wait => Some(ExecuteIntervention)
    case ExecuteIntervention => if disposition.Some? then None else Some(Reconcile)
    case Reconcile => None
  }

  function Rank(node: Option<NodeName>): nat {
    match node
    case None => 0
    case Some(Reconcile) => 1
    case Some(ExecuteIntervention) => 2
    case Some(Wait) => 3
    case Some(Diagnose) => 4
    case Some(Ingest) => 5
  }

  function RunFrom(node: Option<NodeName>, s: GraphState, g: GraphInput): GraphState
    requires Valid(g.policy)
    decreases Rank(node)
  {
    if node.None? then s
    else
      var after := Visit(node.value, s, g);
      RunFrom(Next(node.value, after.disposition, g.playbook), after, g)
  }

  function RunGraph(c: Case, g: GraphInput): GraphState
    requires Valid(g.policy)
  {
    RunFrom(Some(Ingest), GraphState(c, None, [], []), g)
  }

  /** The state a verdict other than a clearance leaves a case in. */
  function Stopped(outcome: Outcome): Option<LifecycleState> {
    match outcome
    case Halted(rule) => if rule.TraiQuietHours? then Some(Waiting) else Some(Cancelled)
    case Blocked => Some(Escalated)
    case Cleared => None
    case Raised => Some(Intervening)
  }

  /** Where a run ends, as one table over the verdict, the gate and the event. */
  function FinalState(c: Case, g: GraphInput): LifecycleState
    requires Valid(g.policy)
  {
    if g.verdict.disposition.Terminate? then Cancelled
    else if g.verdict.disposition.Escalate? then Escalated
    else Stopped(GraphGate(c, g)).GetOr(if Settles(g.event) then Recovered else Intervening)
  }

  predicate Dispatches(c: Case, g: GraphInput)
    requires Valid(g.policy)
  {
    g.verdict.disposition.Continue? && GraphGate(c, g).Cleared?
  }

  /** The rows a dispatch adds under a filter that keeps only dispatches. */
  function DispatchWeight(c: Case, g: GraphInput, p: AuditRow -> bool): nat
    requires Valid(g.policy)
  {
    if Dispatches(c, g) && p(DispatchOf(g.playbook)) then 1 else 0
  }

  /** The nodes before the execute step write no dispatch and move nothing a gate reads. */
  lemma EarlyCounts(node: NodeName, s: GraphState, g: GraphInput, p: AuditRow -> bool)
    requires Valid(g.policy) && (node.Ingest? || node.Diagnose? || node.Wait?)
    requires forall r: AuditRow :: p(r) ==> IsDispatch(r)
    ensures var d := Visit(node, s, g).c;
      Count(d.audit, p) == Count(s.c.audit, p) && d.bill == s.c.bill && d.retryCount == s.c.retryCount
  {
    var c := s.c;
    match node
    case Ingest =>
      var started := Moved(c, Diagnosing, Row(Ingest, StateTransition));
      CountOneMore(c.audit, Row(Ingest, StateTransition), p);
      CountOneMore(started.audit, AuditRow(Ingest, StateTransition, None, None, g.verdict.rule, None), p);
    case Diagnose => CountOneMore(c.audit, Row(Diagnose, StateTransition), p);
    case Wait => CountOneMore(c.audit, Row(Wait, RetryScheduled), p);
  }

  function DispatchOf(playbook: Playbook): AuditRow {
    DispatchRow(Some(PlaybookAction(playbook).0), PlaybookAction(playbook).1)
  }

  /** The rows the execute step writes. */
  function OutcomeRows(playbook: Playbook, outcome: Outcome): seq<AuditRow> {
    match outcome
    case Halted(rule) =>
      var kind := if rule.TraiQuietHours? then RetryScheduled else StateTransition;
      [AuditRow(ExecuteIntervention, kind, None, None, Some(rule), None)]
    case Blocked => [AuditRow(ExecuteIntervention, StateTransition, None, None, None, None)]
    case Cleared => [DispatchOf(playbook)]
    case Raised => []
  }

  /** What acting on the gates records: a dispatch exactly when cleared. */
  lemma ActingOn(c: Case, playbook: Playbook, outcome: Outcome, p: AuditRow -> bool)
    requires forall r: AuditRow :: p(r) ==> IsDispatch(r)
    ensures var (d, disposition, sent) := ActOn(c, playbook, outcome);
      && d.audit == c.audit + OutcomeRows(playbook, outcome)
      && sent == (if outcome.Cleared? then [PlaybookAction(playbook).0] else [])
      && (disposition.None? <==> outcome.Cleared?)
      && d.state == disposition.GetOr(Intervening)
      && disposition == Stopped(outcome)
      && Count(d.audit, p) == Count(c.audit, p) + if outcome.Cleared? && p(DispatchOf(playbook)) then 1 else 0
  {
    if !outcome.Raised? {
      CountOneMore(c.audit, OutcomeRows(playbook, outcome)[0], p);
    }
  }

  /** Ingest leaves everything the gate reads as it was. */
  lemma GateReadsTheSame(c: Case, d: Case, g: GraphInput)
    requires Valid(g.policy)
    requires d.bill == c.bill && d.retryCount == c.retryCount && VoiceAttempts(d) == VoiceAttempts(c)
    ensures GraphGate(d, g) == GraphGate(c, g)
  {
  }

  /** What the execute step does to the run's own record and to the counts, for a verdict. */
  predicate Executed(t: GraphState, s: GraphState, playbook: Playbook, outcome: Outcome, p: AuditRow -> bool) {
    && t.visited == s.visited + [ExecuteIntervention]
    && t.sent == s.sent + (if outcome.Cleared? then [PlaybookAction(playbook).0] else [])
    && t.disposition == Stopped(outcome)
    && t.c.state == Stopped(outcome).GetOr(Intervening)
    && Count(t.c.audit, p) == Count(s.c.audit, p) + if outcome.Cleared? && p(DispatchOf(playbook)) then 1 else 0
  }

  lemma ExecuteVisitWith(s: GraphState, g: GraphInput, outcome: Outcome, p: AuditRow -> bool)
    requires forall r: AuditRow :: p(r) ==> IsDispatch(r)
    ensures Executed(VisitWith(ExecuteIntervention, s, g, outcome), s, g.playbook, outcome, p)
  {
    ActingOn(s.c, g.playbook, outcome, p);
  }

  lemma ExecuteVisit(s: GraphState, g: GraphInput, p: AuditRow -> bool)
    requires Valid(g.policy)
    requires forall r: AuditRow :: p(r) ==> IsDispatch(r)
    ensures Executed(Visit(ExecuteIntervention, s, g), s, g.playbook, GraphGate(s.c, g), p)
  {
    ExecuteVisitWith(s, g, GraphGate(s.c, g), p);
  }

  predicate Reconciled(t: GraphState, s: GraphState, event: Option<string>, p: AuditRow -> bool) {
    && t.visited == s.visited + [Reconcile] && t.sent == s.sent
    && t.c.state == (if Settles(event) then Recovered else s.c.state)
    && Count(t.c.audit, p) == Count(s.c.audit, p)
  }

  lemma ReconcileVisitWith(s: GraphState, g: GraphInput, outcome: Outcome, p: AuditRow -> bool)
    requires forall r: AuditRow :: p(r) ==> IsDispatch(r)
    ensures Reconciled(VisitWith(Reconcile, s, g, outcome), s, g.event, p)
  {
    CountOneMore(s.c.audit, Row(Reconcile, StateTransition), p);
  }

  lemma ReconcileVisit(s: GraphState, g: GraphInput, p: AuditRow -> bool)
    requires Valid(g.policy)
    requires forall r: AuditRow :: p(r) ==> IsDispatch(r)
    ensures Reconciled(Visit(Reconcile, s, g), s, g.event, p)
  {
    ReconcileVisitWith(s, g, GraphGate(s.c, g), p);
  }

  lemma OneStep(node: NodeName, s: GraphState, g: GraphInput)
    requires Valid(g.policy)
    ensures RunFrom(Some(node), s, g)
         == RunFrom(Next(node, Visit(node, s, g).disposition, g.playbook), Visit(node, s, g), g)
  {
  }

  lemma NoStep(s: GraphState, g: GraphInput)
    requires Valid(g.policy)
    ensures RunFrom(None, s, g) == s
  {
  }

  /** What a run from the execute step on adds to case `c`, for a verdict of the gates. */
  predicate ConcludesWith(r: GraphState, c: Case, visited: seq<NodeName>, g: GraphInput, outcome: Outcome,
                          p: AuditRow -> bool)
  {
    && r.c.state == Stopped(outcome).GetOr(if Settles(g.event) then Recovered else Intervening)
    && r.visited == visited + (if outcome.Cleared? then [ExecuteIntervention, Reconcile] else [ExecuteIntervention])
    && r.sent == (if outcome.Cleared? then [PlaybookAction(g.playbook).0] else [])
    && Count(r.c.audit, p) == Count(c.audit, p) + if outcome.Cleared? && p(DispatchOf(g.playbook)) then 1 else 0
  }

  predicate Concludes(r: GraphState, c: Case, visited: seq<NodeName>, g: GraphInput, p: AuditRow -> bool)
    requires Valid(g.policy)
  {
    ConcludesWith(r, c, visited, g, GraphGate(c, g), p)
  }

  /** The two last steps, put together. */
  lemma StepsConclude(s: GraphState, executed: GraphState, r: GraphState, g: GraphInput, outcome: Outcome, p: AuditRow -> bool)
    requires s.sent == [] && Executed(executed, s, g.playbook, outcome, p)
    requires if outcome.Cleared? then Reconciled(r, executed, g.event, p) else r == executed
    ensures ConcludesWith(r, s.c, s.visited, g, outcome, p)
  {
    assert s.visited + [ExecuteIntervention] + [Reconcile] == s.visited + [ExecuteIntervention, Reconcile];
  }

  lemma ExecuteLeadsOn(s: GraphState, g: GraphInput, p: AuditRow -> bool) returns (t: GraphState)
    requires Valid(g.policy)
    requires forall r: AuditRow :: p(r) ==> IsDispatch(r)
    ensures Executed(t, s, g.playbook, GraphGate(s.c, g), p)
    ensures RunFrom(Some(ExecuteIntervention), s, g)
         == RunFrom(Next(ExecuteIntervention, t.disposition, g.playbook), t, g)
  {
    t := Visit(ExecuteIntervention, s, g);
    ExecuteVisit(s, g, p);
    OneStep(ExecuteIntervention, s, g);
  }

  lemma ReconcileEnds(s: GraphState, g: GraphInput, p: AuditRow -> bool)
    requires Valid(g.policy)
    requires forall r: AuditRow :: p(r) ==> IsDispatch(r)
    ensures Reconciled(RunFrom(Some(Reconcile), s, g), s, g.event, p)
  {
    ReconcileVisit(s, g, p);
    OneStep(Reconcile, s, g);
    NoStep(Visit(Reconcile, s, g), g);
  }

  lemma TailConcludes(s: GraphState, t: GraphState, g: GraphInput, outcome: Outcome, p: AuditRow -> bool)
    requires Valid(g.policy) && s.sent == []
    requires forall r: AuditRow :: p(r) ==> IsDispatch(r)
    requires Executed(t, s, g.playbook, outcome, p)
    ensures ConcludesWith(RunFrom(Next(ExecuteIntervention, t.disposition, g.playbook), t, g), s.c, s.visited, g, outcome, p)
  {
    if outcome.Cleared? {
      ReconcileEnds(t, g, p);
      StepsConclude(s, t, RunFrom(Some(Reconcile), t, g), g, outcome, p);
    } else {
      NoStep(t, g);
      StepsConclude(s, t, t, g, outcome, p);
    }
  }

  /** The execute step and what follows it. */
  lemma TailOfARun(s: GraphState, g: GraphInput, p: AuditRow -> bool)
    requires Valid(g.policy) && s.sent == []
    requires forall r: AuditRow :: p(r) ==> IsDispatch(r)
    ensures Concludes(RunFrom(Some(ExecuteIntervention), s, g), s.c, s.visited, g, p)
  {
    var t := ExecuteLeadsOn(s, g, p);
    TailConcludes(s, t, g, GraphGate(s.c, g), p);
  }

  /** Nothing happened that a gate reads or that `p` counts. */
  predicate SameStart(c: Case, d: Case, p: AuditRow -> bool) {
    && Count(d.audit, p) == Count(c.audit, p) && VoiceAttempts(d) == VoiceAttempts(c)
    && d.bill == c.bill && d.retryCount == c.retryCount
  }

  lemma EarlyVisit(node: NodeName, s: GraphState, g: GraphInput, p: AuditRow -> bool)
    requires Valid(g.policy) && g.verdict.disposition.Continue?
    requires node.Ingest? || node.Diagnose? || node.Wait?
    requires forall r: AuditRow :: p(r) ==> IsDispatch(r)
    ensures var t := Visit(node, s, g);
      && t.visited == s.visited + [node] && t.sent == s.sent
      && (node.Ingest? ==> t.disposition.None?)
      && SameStart(s.c, t.c, p)
  {
    EarlyCounts(node, s, g, p);
    EarlyCounts(node, s, g, IsVoiceDispatch);
  }

  /** A node before the execute step, when the message did not stop the run: it leaves
      everything the gate reads, and every dispatch count, as it was. */
  lemma EarlyStep(node: NodeName, s: GraphState, g: GraphInput, p: AuditRow -> bool) returns (t: GraphState)
    requires Valid(g.policy) && g.verdict.disposition.Continue?
    requires node.Ingest? || node.Diagnose? || node.Wait?
    requires forall r: AuditRow :: p(r) ==> IsDispatch(r)
    ensures RunFrom(Some(node), s, g) == RunFrom(Next(node, t.disposition, g.playbook), t, g)
    ensures t.visited == s.visited + [node] && t.sent == s.sent && SameStart(s.c, t.c, p)
    ensures node.Ingest? ==> t.disposition.None?
  {
    t := Visit(node, s, g);
    EarlyVisit(node, s, g, p);
    OneStep(node, s, g);
  }

  /** The nodes before the execute step. */
  function Preamble(playbook: Playbook): seq<NodeName> {
    if playbook.SalaryCycleSequencer? then [Ingest, Diagnose, Wait] else [Ingest, Diagnose]
  }

  /** The run up to the execute step, when the message did not stop it. */
  lemma UntilExecute(c: Case, g: GraphInput, p: AuditRow -> bool) returns (s: GraphState)
    requires Valid(g.policy) && g.verdict.disposition.Continue?
    requires forall r: AuditRow :: p(r) ==> IsDispatch(r)
    ensures RunGraph(c, g) == RunFrom(Some(ExecuteIntervention), s, g)
    ensures s.visited == Preamble(g.playbook) && s.sent == [] && SameStart(c, s.c, p)
  {
    var start := GraphState(c, None, [], []);
    var ingested := EarlyStep(Ingest, start, g, p);
    s := EarlyStep(Diagnose, ingested, g, p);
    if g.playbook.SalaryCycleSequencer? {
      s := EarlyStep(Wait, s, g, p);
    }
  }

  /** A run that the message did not stop. */
  lemma UnstoppedRun(c: Case, g: GraphInput, p: AuditRow -> bool)
    requires Valid(g.policy) && g.verdict.disposition.Continue?
    requires forall r: AuditRow :: p(r) ==> IsDispatch(r)
    ensures Concludes(RunGraph(c, g), c, Preamble(g.playbook), g, p)
  {
    var s := UntilExecute(c, g, p);
    GateReadsTheSame(c, s.c, g);
    TailOfARun(s, g, p);
  }

  /** A run that the message stopped at the first node. */
  lemma StoppedRun(c: Case, g: GraphInput, p: AuditRow -> bool)
    requires Valid(g.policy) && !g.verdict.disposition.Continue?
    requires forall r: AuditRow :: p(r) ==> IsDispatch(r)
    ensures var r := RunGraph(c, g);
      && r.visited == [Ingest] && r.sent == []
      && r.c.state == (if g.verdict.disposition.Terminate? then Cancelled else Escalated)
      && Count(r.c.audit, p) == Count(c.audit, p)
  {
    var s0 := GraphState(c, None, [], []);
    EarlyCounts(Ingest, s0, g, p);
    OneStep(Ingest, s0, g);
    NoStep(Visit(Ingest, s0, g), g);
  }

  /** At most five nodes, none twice; one dispatch at the most, exactly when the message let
      it, every gate cleared it and it did not raise, with one audit row for it; and the state the table says,
      recovered only after a dispatch that a settlement answered. */
  predicate RunsAsPromised(r: GraphState, c: Case, g: GraphInput, p: AuditRow -> bool)
    requires Valid(g.policy)
  {
    && |r.visited| <= 5 && (forall i, j :: 0 <= i < j < |r.visited| ==> r.visited[i] != r.visited[j])
    && r.sent == (if Dispatches(c, g) then [PlaybookAction(g.playbook).0] else [])
    && Count(r.c.audit, p) == Count(c.audit, p) + DispatchWeight(c, g, p)
    && r.c.state == FinalState(c, g)
    && (r.c.state.Recovered? <==> r.sent != [] && Settles(g.event))
  }

  lemma ConclusionIsAsPromised(r: GraphState, c: Case, g: GraphInput, p: AuditRow -> bool)
    requires Valid(g.policy) && g.verdict.disposition.Continue?
    requires Concludes(r, c, Preamble(g.playbook), g, p)
    ensures RunsAsPromised(r, c, g, p)
  {
  }

  /** Every run. */
  lemma EveryRun(c: Case, g: GraphInput, p: AuditRow -> bool)
    requires Valid(g.policy)
    requires forall r: AuditRow :: p(r) ==> IsDispatch(r)
    ensures RunsAsPromised(RunGraph(c, g), c, g, p)
  {
    if g.verdict.disposition.Continue? {
      UnstoppedRun(c, g, p);
      ConclusionIsAsPromised(RunGraph(c, g), c, g, p);
    } else {
      StoppedRun(c, g, p);
    }
  }

  /** Nothing in a graph run belongs to the ledger or to the sweeper. */
  predicate SameLedger(c: Case, d: Case) {
    && d.artifacts == c.artifacts && d.bill == c.bill && d.balanceDue == c.balanceDue
    && d.balanceDeadline == c.balanceDeadline && d.paymentLinkId == c.paymentLinkId
    && d.terminal == c.terminal && d.retryCount == c.retryCount && d.maxRetries == c.maxRetries
    && d.failureClass == c.failureClass
  }

  lemma ActingKeepsTheLedger(c: Case, playbook: Playbook, outcome: Outcome)
    ensures SameLedger(c, ActOn(c, playbook, outcome).0)
  {
  }

  lemma IngestKeepsTheLedger(c: Case, verdict: Verdict)
    ensures SameLedger(c, IngestNode(c, verdict).0)
  {
  }

  lemma VisitWithKeepsTheLedger(node: NodeName, s: GraphState, g: GraphInput, outcome: Outcome)
    ensures SameLedger(s.c, VisitWith(node, s, g, outcome).c)
  {
    match node
    case Ingest => IngestKeepsTheLedger(s.c, g.verdict);
    case ExecuteIntervention => ActingKeepsTheLedger(s.c, g.playbook, outcome);
    case _ =>
  }

  lemma VisitKeepsTheLedger(node: NodeName, s: GraphState, g: GraphInput)
    requires Valid(g.policy)
    ensures SameLedger(s.c, Visit(node, s, g).c)
  {
    VisitWithKeepsTheLedger(node, s, g, GraphGate(s.c, g));
  }

  lemma LedgerStep(node: NodeName, s: GraphState, g: GraphInput) returns (t: GraphState)
    requires Valid(g.policy)
    ensures RunFrom(Some(node), s, g) == RunFrom(Next(node, t.disposition, g.playbook), t, g)
    ensures SameLedger(s.c, t.c)
  {
    t := Visit(node, s, g);
    VisitKeepsTheLedger(node, s, g);
    OneStep(node, s, g);
  }

  lemma {:induction false} RunFromKeepsTheLedger(node: Option<NodeName>, s: GraphState, g: GraphInput)
    requires Valid(g.policy)
    ensures SameLedger(s.c, RunFrom(node, s, g).c)
    decreases Rank(node)
  {
    if node.Some? {
      var t := LedgerStep(node.value, s, g);
      RunFromKeepsTheLedger(Next(node.value, t.disposition, g.playbook), t, g);
    }
  }
}
