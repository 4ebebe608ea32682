/** Whom the sweeper writes to: what a plan must look like before it is polled, when a
    customer who has paid the whole bill is written to all the same, and which plans of
    several a tick by day writes about. */
module Chasing {
  import opened Domain
  import opened Policies
  import opened Ledger
  import opened Gates
  import opened Sessions
  import opened Safety
  import opened Settled
  import opened Balances

  predicate MayWrite(now: Instant, policy: Policy) {
    !QuietHours(now) && Action.SendWhatsApp in policy.actions && WhatsApp in policy.channels
  }

  /** The answer leaves a first payment still awaited. */
  predicate LeavesAwaited(a: Artifact, answer: GatewayAnswer) {
    a.status.Created? && !ReportsAnAmount(answer) && !ReportsAnEnd(answer)
  }

  /** The artifact will be open and the case owing after this answer, told from the case
      before it. Only the artifact itself is looked at, never what was paid on another. */
  predicate WillBeOwed(c: Case, i: nat, answer: GatewayAnswer)
    requires i < |c.artifacts|
  {
    var a := c.artifacts[i];
    if a.providerId.None? then StillOwed(c, i)
    else if a.acceptPartial then
      && ReportedPaid(a, answer) < c.bill
      && if ReportsAPart(a, answer) then !c.state.Escalated? && !c.state.Cancelled?
         else LeavesAwaited(a, answer) && !TerminalState(c.state)
    else
      && (ReportsAPart(a, answer) || LeavesAwaited(a, answer))
      && !TerminalState(c.state) && Balance(c) > 0
  }

  lemma OwedIsDecidedBeforeThePoll(c: Case, i: nat, answer: GatewayAnswer)
    requires i < |c.artifacts|
    ensures StillOwed(ReconcileArtifact(c, i, answer), i) <==> WillBeOwed(c, i, answer)
  {
  }

  lemma FollowsUpWhenOwed(c: Case, i: nat, answer: GatewayAnswer, now: Instant, policy: Policy)
    requires i < |c.artifacts| && Valid(policy)
    ensures FollowsUp(c, i, answer, now, policy)
       <==> StillOwed(ReconcileArtifact(c, i, answer), i) && MayWrite(now, policy)
  {
    var r := ReconcileArtifact(c, i, answer);
    ApprovalMeansEveryGatePassed(r, Tool.SendWhatsApp, None, None, None, 0, now, policy);
  }

  /** The sweeper writes about an artifact exactly when it will be owed after the poll, by
      day and within the policy. */
  lemma FollowUpIsDecidedBeforeThePoll(c: Case, i: nat, answer: GatewayAnswer, now: Instant, policy: Policy)
    requires i < |c.artifacts| && Valid(policy)
    ensures FollowsUp(c, i, answer, now, policy) <==> WillBeOwed(c, i, answer) && MayWrite(now, policy)
  {
    FollowsUpWhenOwed(c, i, answer, now, policy);
    OwedIsDecidedBeforeThePoll(c, i, answer);
  }

  // ------------------------------------------------ customers who have paid

  /** A customer who has paid the whole bill, on however many artifacts, is written to
      about a plan, against the promise that whoever paid is never chased, exactly when the
      plan will be owed and what was paid elsewhere makes up the bill together with what the
      answer leaves paid on it. */
  lemma PaidBillIsChasedExactlyWhen(c: Case, i: nat, answer: GatewayAnswer, now: Instant, policy: Policy)
    requires i < |c.artifacts| && Valid(policy)
    ensures FollowsUp(c, i, answer, now, policy) && SumPaid(ReconcileArtifact(c, i, answer)) >= c.bill
       <==> && WillBeOwed(c, i, answer) && MayWrite(now, policy)
            && PaidElsewhere(c, i) + PaidAfter(c.artifacts[i], answer) >= c.bill
  {
    FollowUpIsDecidedBeforeThePoll(c, i, answer, now, policy);
    PollMovesThePayment(c, i, answer);
  }

  /** Another artifact alone was paid at least the whole bill. */
  predicate CoveredElsewhere(c: Case, i: nat) {
    exists j :: 0 <= j < |c.artifacts| && j != i && c.artifacts[j].amountPaid >= c.bill
  }

  lemma CoveredAfterThePoll(c: Case, i: nat, answer: GatewayAnswer)
    requires i < |c.artifacts|
    ensures Covered(ReconcileArtifact(c, i, answer))
       <==> CoveredElsewhere(c, i) || PaidAfter(c.artifacts[i], answer) >= c.bill
  {
    var d := ReconcileArtifact(c, i, answer);
    assert d.artifacts[i].amountPaid == PaidAfter(c.artifacts[i], answer);
    forall j | 0 <= j < |c.artifacts| && j != i
      ensures d.artifacts[j] == c.artifacts[j]
    {
    }
    if CoveredElsewhere(c, i) {
      var j :| 0 <= j < |c.artifacts| && j != i && c.artifacts[j].amountPaid >= c.bill;
      assert d.artifacts[j].amountPaid >= d.bill;
    }
    if Covered(d) {
      var j :| 0 <= j < |d.artifacts| && d.artifacts[j].amountPaid >= d.bill;
      assert j == i || c.artifacts[j].amountPaid >= c.bill;
    }
  }

  /** Where one artifact alone was paid the bill, that is exactly when the plan will be owed
      and it was another one, or, for a plan that is not polled, any. */
  lemma CoveredCaseIsChasedExactlyWhen(c: Case, i: nat, answer: GatewayAnswer, now: Instant, policy: Policy)
    requires i < |c.artifacts| && Valid(policy) && c.artifacts[i].acceptPartial
    ensures FollowsUp(c, i, answer, now, policy) && Covered(ReconcileArtifact(c, i, answer))
       <==> && WillBeOwed(c, i, answer) && MayWrite(now, policy)
            && if c.artifacts[i].providerId.None? then Covered(c) else CoveredElsewhere(c, i)
  {
    FollowUpIsDecidedBeforeThePoll(c, i, answer, now, policy);
    if c.artifacts[i].providerId.Some? {
      CoveredAfterThePoll(c, i, answer);
    }
  }

  /** Under a gateway that never takes back what it reported, some answer leads to a
      follow-up on an overdue plan exactly by day, where the policy permits it, and while the
      plan itself was paid less than the bill, or, where it is not polled, while any balance
      is booked. What was paid elsewhere makes no difference. */
  lemma DuePlanCanBeChasedExactlyWhen(c: Case, i: nat, now: Instant, policy: Policy)
    requires i < |c.artifacts| && Valid(policy)
    requires Overdue(c.artifacts[i], now) && !TerminalState(c.state)
    ensures (exists answer: GatewayAnswer ::
               && PaidAfter(c.artifacts[i], answer) >= c.artifacts[i].amountPaid
               && FollowsUp(c, i, answer, now, policy))
       <==> && MayWrite(now, policy)
            && if c.artifacts[i].providerId.Some? then c.artifacts[i].amountPaid < c.bill else Balance(c) > 0
  {
    forall answer: GatewayAnswer
      ensures FollowsUp(c, i, answer, now, policy) <==> WillBeOwed(c, i, answer) && MayWrite(now, policy)
    {
      FollowUpIsDecidedBeforeThePoll(c, i, answer, now, policy);
    }
    var silent := GatewayAnswer(None, None);
    assert PaidAfter(c.artifacts[i], silent) == c.artifacts[i].amountPaid;
    assert FollowsUp(c, i, silent, now, policy) <==> WillBeOwed(c, i, silent) && MayWrite(now, policy);
  }

  // ---------------------------------------------------- a whole tick by day

  /** Whether a plan is still owed when its turn comes, in a case that is recovered or open
      and has this balance. */
  predicate OwedInTurn(recovered: bool, balance: int, bill: int, a: Artifact, answer: GatewayAnswer) {
    if a.providerId.None? then !recovered && Payable(a) && balance > 0
    else ReportedPaid(a, answer) < bill && (ReportsAPart(a, answer) || (LeavesAwaited(a, answer) && !recovered))
  }

  function BalanceAfter(balance: int, bill: int, a: Artifact, answer: GatewayAnswer): int {
    if a.providerId.Some? then MaxInt(bill - ReportedPaid(a, answer), 0) else balance
  }

  /** The tick writes about plan `k`: the plans before it, as they are polled, decide in what
      state and with what balance its turn comes. */
  predicate WrittenInTurn(k: nat, recovered: bool, balance: int, bill: int, artifacts: seq<Artifact>, due: seq<nat>,
                          answers: nat -> GatewayAnswer)
    requires Within(due, |artifacts|)
    decreases |due|
  {
    if due == [] then false
    else
      var a, answer := artifacts[due[0]], answers(due[0]);
      if due[0] == k then OwedInTurn(recovered, balance, bill, a, answer)
      else
        WrittenInTurn(k, Recovers(recovered, bill, a, answer), BalanceAfter(balance, bill, a, answer), bill, artifacts,
                      due[1..], answers)
  }

  lemma {:induction false} SameDueSameTurn(k: nat, recovered: bool, balance: int, bill: int, xs: seq<Artifact>,
                                           ys: seq<Artifact>, due: seq<nat>, answers: nat -> GatewayAnswer)
    requires Within(due, |xs|) && |xs| == |ys| && forall j :: j in due ==> xs[j] == ys[j]
    ensures WrittenInTurn(k, recovered, balance, bill, xs, due, answers)
         == WrittenInTurn(k, recovered, balance, bill, ys, due, answers)
    decreases |due|
  {
    if due != [] && due[0] != k {
      var a, answer := xs[due[0]], answers(due[0]);
      SameDueSameTurn(k, Recovers(recovered, bill, a, answer), BalanceAfter(balance, bill, a, answer), bill, xs, ys,
                      due[1..], answers);
    }
  }

  lemma OwedInTurnIsWillBeOwed(c: Case, i: nat, answer: GatewayAnswer)
    requires i < |c.artifacts| && c.artifacts[i].acceptPartial && OpenOrRecovered(c.state)
    ensures WillBeOwed(c, i, answer) <==> OwedInTurn(c.state.Recovered?, Balance(c), c.bill, c.artifacts[i], answer)
  {
  }

  lemma PermittedChase(r: Case, i: nat, now: Instant, policy: Policy)
    requires i < |r.artifacts| && Valid(policy) && MayWrite(now, policy)
    ensures var d := Chase(r, i, now, policy);
      && d.state == r.state && d.balanceDue == r.balanceDue && d.bill == r.bill
      && forall j :: 0 <= j < |r.artifacts| && j != i ==> d.artifacts[j] == r.artifacts[j]
  {
    ApprovalMeansEveryGatePassed(r, Tool.SendWhatsApp, None, None, None, 0, now, policy);
  }

  /** One overdue plan by day. */
  lemma DayProcess(c: Case, i: nat, answer: GatewayAnswer, now: Instant, policy: Policy)
    requires i < |c.artifacts| && Valid(policy) && MayWrite(now, policy) && c.artifacts[i].acceptPartial
    requires OpenOrRecovered(c.state)
    ensures var d := ProcessDue(c, i, answer, now, policy);
      && OpenOrRecovered(d.state) && d.bill == c.bill
      && (d.state.Recovered? <==> Recovers(c.state.Recovered?, c.bill, c.artifacts[i], answer))
      && Balance(d) == BalanceAfter(Balance(c), c.bill, c.artifacts[i], answer)
      && forall j :: 0 <= j < |c.artifacts| && j != i ==> d.artifacts[j] == c.artifacts[j]
  {
    PermittedChase(ReconcileArtifact(c, i, answer), i, now, policy);
  }

  lemma RowOfOneTurn(c: Case, i: nat, answer: GatewayAnswer, now: Instant, policy: Policy, k: nat)
    requires i < |c.artifacts| && Valid(policy) && c.artifacts[i].acceptPartial && OpenOrRecovered(c.state)
    ensures FollowUps(ProcessDue(c, i, answer, now, policy), k) == FollowUps(c, k)
          + if i == k && MayWrite(now, policy) && OwedInTurn(c.state.Recovered?, Balance(c), c.bill, c.artifacts[i], answer)
            then 1 else 0
  {
    ProcessCounts(c, i, answer, now, policy, FollowUpOf(k));
    FollowUpIsDecidedBeforeThePoll(c, i, answer, now, policy);
    OwedInTurnIsWillBeOwed(c, i, answer);
  }

  lemma {:induction false} DaySweepWritesInTurn(c: Case, due: seq<nat>, answers: nat -> GatewayAnswer, now: Instant,
                                                policy: Policy, k: nat)
    requires Within(due, |c.artifacts|) && Ascending(due) && Valid(policy) && MayWrite(now, policy)
    requires OpenOrRecovered(c.state) && forall j :: j in due ==> c.artifacts[j].acceptPartial
    ensures FollowUps(SweepAll(c, due, answers, now, policy), k) == FollowUps(c, k)
          + if WrittenInTurn(k, c.state.Recovered?, Balance(c), c.bill, c.artifacts, due, answers) then 1 else 0
    decreases |due|
  {
    if due != [] {
      var i, rest := due[0], due[1..];
      RowOfOneTurn(c, i, answers(i), now, policy, k);
      DayProcess(c, i, answers(i), now, policy);
      assert i !in rest;
      var mid := ProcessDue(c, i, answers(i), now, policy);
      DaySweepWritesInTurn(mid, rest, answers, now, policy, k);
      SameDueSameTurn(k, mid.state.Recovered?, Balance(mid), c.bill, c.artifacts, mid.artifacts, rest, answers);
      if i == k {
        NotDueNotWritten(k, mid.state.Recovered?, Balance(mid), c.bill, c.artifacts, rest, answers);
      }
    }
  }

  lemma {:induction false} NotDueNotWritten(k: nat, recovered: bool, balance: int, bill: int, artifacts: seq<Artifact>,
                                            due: seq<nat>, answers: nat -> GatewayAnswer)
    requires Within(due, |artifacts|) && k !in due
    ensures !WrittenInTurn(k, recovered, balance, bill, artifacts, due, answers)
    decreases |due|
  {
    if due != [] {
      var a, answer := artifacts[due[0]], answers(due[0]);
      NotDueNotWritten(k, Recovers(recovered, bill, a, answer), BalanceAfter(balance, bill, a, answer), bill, artifacts,
                       due[1..], answers);
    }
  }

  lemma {:induction false} ForbiddenSweepWritesNothing(c: Case, due: seq<nat>, answers: nat -> GatewayAnswer, now: Instant,
                                                       policy: Policy, k: nat)
    requires Within(due, |c.artifacts|) && Valid(policy) && !MayWrite(now, policy)
    ensures FollowUps(SweepAll(c, due, answers, now, policy), k) == FollowUps(c, k)
    decreases |due|
  {
    if due != [] {
      ProcessCounts(c, due[0], answers(due[0]), now, policy, FollowUpOf(k));
      FollowsUpWhenOwed(c, due[0], answers(due[0]), now, policy);
      ForbiddenSweepWritesNothing(ProcessDue(c, due[0], answers(due[0]), now, policy), due[1..], answers, now, policy, k);
    }
  }

  /** A whole tick, at any hour and under any policy, writes a follow-up about plan `k`
      exactly when it is by day and permitted, the case was open, the plan was due, and it is
      still owed when its turn comes. */
  lemma TickWritesExactlyAbout(c: Case, answers: nat -> GatewayAnswer, now: Instant, policy: Policy, k: nat)
    requires Valid(policy)
    ensures FollowUps(Sweep(c, answers, now, policy), k) == FollowUps(c, k)
          + if MayWrite(now, policy) && WrittenInTurn(k, false, Balance(c), c.bill, c.artifacts, DueNow(c, now), answers)
            then 1 else 0
  {
    var due := DueNow(c, now);
    if !MayWrite(now, policy) {
      ForbiddenSweepWritesNothing(c, due, answers, now, policy, k);
    } else if !TerminalState(c.state) {
      DaySweepWritesInTurn(c, due, answers, now, policy, k);
    }
  }
}
