/** A case, its payment artifacts and its audit trail, with the bookkeeping of
    minting, polling and folding payments written as functions on values. */
module Ledger {
  import opened Domain

  datatype ArtifactKind = Link | UpiLink | Qr

  datatype ArtifactStatus = Created | Paid | PartiallyPaid | Expired | Closed

  /** `providerId` is absent for a simulated artifact. Money is in paise. */
  datatype Artifact = Artifact(
    kind: ArtifactKind,
    providerId: Option<string>,
    amount: int,
    acceptPartial: bool,
    firstMinPartial: Option<int>,
    deadline: Option<Instant>,
    status: ArtifactStatus,
    amountPaid: int,
    followedUpAt: Option<Instant>
  )

  datatype NodeName = Ingest | Diagnose | Wait | ExecuteIntervention | Reconcile

  datatype ActionType = StateTransition | InterventionDispatch | RetryScheduled | Escalation

  /** The fields of an audit row that other code reads back. `followUp` is the
      artifact a deadline follow-up names. */
  datatype AuditRow = AuditRow(
    node: NodeName,
    actionType: ActionType,
    action: Option<Action>,
    channel: Option<Channel>,
    rule: Option<StoppingRule>,
    followUp: Option<nat>
  )

  /** A transaction record with its artifacts in order of creation, its append-only
      audit trail, its escalation tickets, and the live session's terminal flag. */
  datatype Case = Case(
    bill: nat,
    failureClass: int,
    retryCount: int,
    maxRetries: int,
    state: LifecycleState,
    balanceDue: Option<int>,
    balanceDeadline: Option<Instant>,
    paymentLinkId: Option<string>,
    artifacts: seq<Artifact>,
    audit: seq<AuditRow>,
    tickets: nat,
    terminal: bool
  )

  /** What the gateway says about an artifact: nothing here is trusted. */
  datatype GatewayAnswer = GatewayAnswer(status: Option<string>, amountPaid: Option<int>)

  function MaxInt(x: int, y: int): int { if x < y then y else x }

  function MinInt(x: int, y: int): int { if x < y then x else y }

  predicate Payable(a: Artifact) { a.status.Created? || a.status.PartiallyPaid? }

  predicate TerminalState(s: LifecycleState) {
    s.Recovered? || s.Escalated? || s.Cancelled? || s.Failed?
  }

  // --------------------------------------------------------------- minting

  function Retired(a: Artifact): Artifact {
    if a.status.Created? then a.(status := Closed) else a
  }

  function CloseCreated(artifacts: seq<Artifact>): seq<Artifact> {
    seq(|artifacts|, i requires 0 <= i < |artifacts| => Retired(artifacts[i]))
  }

  /** Cancelling a superseded provider link raised. The handler then reaches a name
      the module never defines, so the mint ends there with nothing written. */
  predicate CancelCrashes(artifacts: seq<Artifact>, cancelRaises: bool) {
    cancelRaises && exists i :: 0 <= i < |artifacts| && artifacts[i].status.Created? && artifacts[i].providerId.Some?
  }

  function Minted(kind: ArtifactKind, amount: int, partial: bool, deadline: Option<Instant>,
                  providerId: Option<string>): Artifact {
    Artifact(kind, providerId, amount, partial, if partial then Some(amount) else None,
             if partial then deadline else None, Created, 0, None)
  }

  function Mint(c: Case, kind: ArtifactKind, amount: int, partial: bool, deadline: Option<Instant>,
                providerId: Option<string>): Case {
    c.(artifacts := CloseCreated(c.artifacts) + [Minted(kind, amount, partial, deadline, providerId)],
       paymentLinkId := providerId,
       balanceDue := if partial then Some(MaxInt(c.bill - amount, 0)) else c.balanceDue,
       balanceDeadline := if partial && deadline.Some? then deadline else c.balanceDeadline)
  }

  // ------------------------------------------------- polling and folding

  predicate ReportsAnAmount(answer: GatewayAnswer) { answer.amountPaid.Some? && answer.amountPaid.value > 0 }

  predicate ReportsAnEnd(answer: GatewayAnswer) { answer.status in {Some("paid"), Some("expired")} }

  function Polled(a: Artifact, answer: GatewayAnswer): Artifact {
    if answer.status == Some("paid") then a.(status := Paid, amountPaid := a.amount)
    else if answer.amountPaid.Some? && answer.amountPaid.value > 0 then
      a.(amountPaid := answer.amountPaid.value,
         status := if answer.amountPaid.value >= a.amount then Paid else PartiallyPaid)
    else if answer.status == Some("expired") then a.(status := Expired)
    else a
  }

  /** Book an artifact's payment against the case. */
  function Fold(c: Case, a: Artifact): Case {
    var closed := c.state.Escalated? || c.state.Cancelled?;
    if a.acceptPartial then
      var balance := MaxInt(c.bill - a.amountPaid, 0);
      var booked := c.(balanceDue := Some(balance));
      if balance <= 0 then booked.(state := Recovered)
      else if a.status.PartiallyPaid? && !closed then booked.(state := Waiting)
      else booked
    else if a.status.Paid? && !closed then c.(state := Recovered)
    else c
  }

  function WithArtifact(c: Case, i: nat, a: Artifact): Case
    requires i < |c.artifacts|
  {
    c.(artifacts := c.artifacts[i := a])
  }

  function ReconcileArtifact(c: Case, i: nat, answer: GatewayAnswer): Case
    requires i < |c.artifacts|
  {
    if c.artifacts[i].providerId.None? then c
    else
      var a := Polled(c.artifacts[i], answer);
      Fold(WithArtifact(c, i, a), a)
  }

  predicate CanSimulate(a: Artifact) { !a.status.Paid? && !a.status.Expired? }

  function SimulatePaid(c: Case, i: nat): Case
    requires i < |c.artifacts| && CanSimulate(c.artifacts[i])
  {
    var a := c.artifacts[i].(status := Paid, amountPaid := c.artifacts[i].amount);
    Fold(WithArtifact(c, i, a), a)
  }

  // ------------------------------------------------------------ the audit

  function Row(node: NodeName, kind: ActionType): AuditRow {
    AuditRow(node, kind, None, None, None, None)
  }

  function Logged(c: Case, row: AuditRow): Case { c.(audit := c.audit + [row]) }

  function Moved(c: Case, state: LifecycleState, row: AuditRow): Case {
    Logged(c.(state := state), row)
  }

  predicate IsDispatch(r: AuditRow) { r.actionType.InterventionDispatch? }

  predicate IsVoiceDispatch(r: AuditRow) { IsDispatch(r) && r.channel == Some(Voice) }

  predicate IsNudge(r: AuditRow) { IsDispatch(r) && r.channel == Some(WhatsApp) }

  /** Keeps the deadline follow-ups of artifact `i`. */
  function FollowUpOf(i: nat): AuditRow -> bool {
    (r: AuditRow) => IsDispatch(r) && r.followUp == Some(i)
  }

  /** How many rows satisfy `p`. */
  function Count(rows: seq<AuditRow>, p: AuditRow -> bool): nat {
    if rows == [] then 0
    else Count(rows[..|rows| - 1], p) + if p(rows[|rows| - 1]) then 1 else 0
  }

  lemma CountOneMore(rows: seq<AuditRow>, row: AuditRow, p: AuditRow -> bool)
    ensures Count(rows + [row], p) == Count(rows, p) + if p(row) then 1 else 0
  {
    assert (rows + [row])[..|rows|] == rows;
  }

  function VoiceAttempts(c: Case): nat { Count(c.audit, IsVoiceDispatch) }

  function Nudges(c: Case): nat { Count(c.audit, IsNudge) }

  function FollowUps(c: Case, i: nat): nat { Count(c.audit, FollowUpOf(i)) }

  // -------------------------------------------------------- the invariants

  /** A paid artifact was paid at least what it asked for, and an artifact that is
      not a partial plan asks for at least the whole bill. */
  predicate Booked(c: Case) {
    forall i :: 0 <= i < |c.artifacts| ==>
      && (c.artifacts[i].status.Paid? ==> c.artifacts[i].amountPaid >= c.artifacts[i].amount)
      && (!c.artifacts[i].acceptPartial ==> c.artifacts[i].amount >= c.bill)
  }

  /** Only the newest artifact may still await its first payment, and the newest is
      never one that was superseded. */
  predicate NewestOpen(artifacts: seq<Artifact>) {
    && (forall i :: 0 <= i < |artifacts| - 1 ==> !artifacts[i].status.Created?)
    && (artifacts != [] ==> !artifacts[|artifacts| - 1].status.Closed?)
  }

  /** Some artifact was paid at least the whole bill. */
  predicate Covered(c: Case) {
    exists i :: 0 <= i < |c.artifacts| && c.artifacts[i].amountPaid >= c.bill
  }

  /** What a fold books: the balance and the payment it counts add up to the bill,
      and the case closes only on a payment that covers it. */
  lemma FoldBooksTheBill(c: Case, a: Artifact)
    requires a.status.Paid? ==> a.amountPaid >= a.amount
    requires !a.acceptPartial ==> a.amount >= c.bill
    ensures a.acceptPartial ==> Fold(c, a).balanceDue == Some(c.bill - MinInt(a.amountPaid, c.bill))
    ensures !a.acceptPartial ==> Fold(c, a).balanceDue == c.balanceDue
    ensures Fold(c, a).state.Recovered? && !c.state.Recovered? ==> a.amountPaid >= c.bill
    ensures a.acceptPartial ==> (a.amountPaid >= c.bill ==> Fold(c, a).state.Recovered?)
    ensures !a.acceptPartial && a.status.Paid? && !c.state.Escalated? && !c.state.Cancelled?
        ==> Fold(c, a).state.Recovered?
    ensures Fold(c, a).artifacts == c.artifacts && Fold(c, a).audit == c.audit
  {
  }

  lemma ReconcileKeepsTheBooks(c: Case, i: nat, answer: GatewayAnswer)
    requires i < |c.artifacts| && Booked(c) && NewestOpen(c.artifacts)
    ensures var d := ReconcileArtifact(c, i, answer);
            && Booked(d) && NewestOpen(d.artifacts) && |d.artifacts| == |c.artifacts|
            && (d.state.Recovered? && !c.state.Recovered? ==> d.artifacts[i].amountPaid >= d.bill)
  {
    if c.artifacts[i].providerId.Some? {
      var a := Polled(c.artifacts[i], answer);
      FoldBooksTheBill(WithArtifact(c, i, a), a);
    }
  }

  lemma SimulatedPaymentKeepsTheBooks(c: Case, i: nat)
    requires i < |c.artifacts| && Booked(c) && NewestOpen(c.artifacts)
    requires CanSimulate(c.artifacts[i])
    ensures var d := SimulatePaid(c, i);
            && Booked(d) && NewestOpen(d.artifacts) && |d.artifacts| == |c.artifacts|
            && (d.state.Recovered? && !c.state.Recovered? ==> d.artifacts[i].amountPaid >= d.bill)
  {
    var a := c.artifacts[i].(status := Paid, amountPaid := c.artifacts[i].amount);
    FoldBooksTheBill(WithArtifact(c, i, a), a);
  }

  lemma MintKeepsTheBooks(c: Case, kind: ArtifactKind, amount: int, partial: bool,
                          deadline: Option<Instant>, providerId: Option<string>)
    requires Booked(c) && (!partial ==> amount >= c.bill)
    ensures var d := Mint(c, kind, amount, partial, deadline, providerId);
            && Booked(d) && NewestOpen(d.artifacts)
            && (partial && amount <= c.bill ==> d.balanceDue == Some(c.bill - amount))
  {
  }

  /** A poll never closes an artifact, never makes one await its first payment again, and
      touches no other one. It leaves a closed artifact closed exactly when there is
      nothing to poll or nothing is reported. */
  lemma OnlyMintingCloses(c: Case, i: nat, answer: GatewayAnswer)
    requires i < |c.artifacts|
    ensures var d := ReconcileArtifact(c, i, answer);
            && (forall k :: 0 <= k < |c.artifacts| && !c.artifacts[k].status.Closed? ==> !d.artifacts[k].status.Closed?)
            && (forall k :: 0 <= k < |c.artifacts| && d.artifacts[k].status.Created? ==> c.artifacts[k].status.Created?)
            && (forall k :: 0 <= k < |c.artifacts| && k != i ==> d.artifacts[k] == c.artifacts[k])
            && (c.artifacts[i].status.Closed? ==>
                  (d.artifacts[i].status.Closed? <==>
                     c.artifacts[i].providerId.None? || (!ReportsAnAmount(answer) && !ReportsAnEnd(answer))))
  {
  }

  // ----------------------------------------- what the ledger does not promise

  /** A case can stay recovered while its books say otherwise: when the gateway
      reports a plan's link paid after a larger payment covered the bill, the paid
      amount falls back to the first instalment and a balance reappears. */
  lemma RecoveredCaseMayRegainABalance()
    ensures exists c: Case, first: GatewayAnswer, second: GatewayAnswer ::
      && Booked(c) && NewestOpen(c.artifacts) && |c.artifacts| == 1
      && var d := ReconcileArtifact(c, 0, first);
      && d.state.Recovered? && d.balanceDue == Some(0)
      && var e := ReconcileArtifact(d, 0, second);
      && e.state.Recovered? && e.balanceDue == Some(50)
  {
    var plan := Artifact(Link, Some("plink"), 50, true, Some(50), Some(0), Created, 0, None);
    var c := Case(100, 1, 0, 3, Intervening, Some(50), Some(0), Some("plink"), [plan], [], 0, false);
    var first := GatewayAnswer(None, Some(100));
    var second := GatewayAnswer(Some("paid"), None);
    var d := ReconcileArtifact(c, 0, first);
    assert d.artifacts[0].status == Paid && d.artifacts[0].amountPaid == 100;
    var e := ReconcileArtifact(d, 0, second);
    assert e.artifacts[0].amountPaid == 50;
  }

  /** The payment a poll leaves on an artifact. */
  function ReportedPaid(a: Artifact, answer: GatewayAnswer): int {
    if answer.status == Some("paid") then a.amount
    else if ReportsAnAmount(answer) then answer.amountPaid.value
    else a.amountPaid
  }

  /** The answer leaves the artifact partly paid. */
  predicate ReportsAPart(a: Artifact, answer: GatewayAnswer) {
    && answer.status != Some("paid")
    && if ReportsAnAmount(answer) then answer.amountPaid.value < a.amount
       else answer.status != Some("expired") && a.status.PartiallyPaid?
  }

  /** The answer leaves the artifact fully paid. */
  predicate ReportsAllOfIt(a: Artifact, answer: GatewayAnswer) {
    || answer.status == Some("paid")
    || (if ReportsAnAmount(answer) then answer.amountPaid.value >= a.amount
        else answer.status != Some("expired") && a.status.Paid?)
  }

  /** A plan whose link the provider knows: the one kind of artifact whose polls are
      folded into the balance. */
  predicate PolledPlan(a: Artifact) { a.providerId.Some? && a.acceptPartial }

  function Balance(c: Case): int { c.balanceDue.GetOr(0) }

  /** What any poll does to the balance: a plan overwrites it with the bill less what is
      reported of that plan, whatever other artifacts were paid; nothing else touches it. */
  lemma PollOverwritesTheBalance(c: Case, i: nat, answer: GatewayAnswer)
    requires i < |c.artifacts|
    ensures ReconcileArtifact(c, i, answer).balanceDue
         == if PolledPlan(c.artifacts[i]) then Some(MaxInt(c.bill - ReportedPaid(c.artifacts[i], answer), 0))
            else c.balanceDue
  {
  }

  /** A poll lets the balance only shrink exactly when it polls no plan, or the bill less
      what is reported of the plan is no more than the balance. Only where the plan itself
      booked the balance does that mean that no less is reported than was paid. */
  lemma BalanceShrinksExactlyWhen(c: Case, i: nat, answer: GatewayAnswer)
    requires i < |c.artifacts|
    ensures var a := c.artifacts[i];
      && (Balance(ReconcileArtifact(c, i, answer)) <= Balance(c) <==>
            (PolledPlan(a) ==> MaxInt(c.bill - ReportedPaid(a, answer), 0) <= Balance(c)))
      && (PolledPlan(a) && c.balanceDue == Some(MaxInt(c.bill - a.amountPaid, 0)) ==>
            (Balance(ReconcileArtifact(c, i, answer)) <= Balance(c) <==>
               ReportedPaid(a, answer) >= MinInt(a.amountPaid, c.bill)))
  {
    PollOverwritesTheBalance(c, i, answer);
  }

  // --------------------------------------------- a recovered case that owes

  predicate RecoveredButOwing(c: Case) { c.state.Recovered? && Balance(c) > 0 }

  /** A poll leaves a case recovered and owing exactly when it was so and no plan was
      polled; when it was recovered and a plan is reported below the bill in a way that
      does not leave it partly paid; or when a plain link closes a case that owes. */
  lemma PollLeavesRecoveredButOwingExactlyWhen(c: Case, i: nat, answer: GatewayAnswer)
    requires i < |c.artifacts|
    ensures var a := c.artifacts[i];
      RecoveredButOwing(ReconcileArtifact(c, i, answer)) <==>
        if PolledPlan(a) then
          c.state.Recovered? && ReportedPaid(a, answer) < c.bill && !ReportsAPart(a, answer)
        else
          && Balance(c) > 0
          && (|| c.state.Recovered?
              || (a.providerId.Some? && ReportsAllOfIt(a, answer) && !c.state.Escalated? && !c.state.Cancelled?))
  {
  }

  /** A poll takes a case out of recovery exactly when it reports a plan partly paid, below
      the bill; and then the case is waiting. */
  lemma PollUndoesARecoveryExactlyWhen(c: Case, i: nat, answer: GatewayAnswer)
    requires i < |c.artifacts| && c.state.Recovered?
    ensures var a, d := c.artifacts[i], ReconcileArtifact(c, i, answer);
      && (!d.state.Recovered? <==> PolledPlan(a) && ReportedPaid(a, answer) < c.bill && ReportsAPart(a, answer))
      && (!d.state.Recovered? ==> d.state.Waiting? && Balance(d) > 0)
  {
  }

  /** A forced payment never takes a case out of recovery, and leaves it recovered and
      owing exactly when a plan's instalment is below the bill of a recovered case, or a
      plain artifact closes a case that owes. */
  lemma ForcedPaymentLeavesRecoveredButOwingExactlyWhen(c: Case, i: nat)
    requires i < |c.artifacts| && CanSimulate(c.artifacts[i])
    ensures var a, d := c.artifacts[i], SimulatePaid(c, i);
      && (c.state.Recovered? ==> d.state.Recovered?)
      && (RecoveredButOwing(d) <==>
            if a.acceptPartial then c.state.Recovered? && a.amount < c.bill
            else Balance(c) > 0 && !c.state.Escalated? && !c.state.Cancelled?)
  {
  }
}
