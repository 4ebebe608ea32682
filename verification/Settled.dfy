/** Which artifacts a step can touch: superseded ones, paid ones, and those a sweep of the
    overdue plans looks at. */
module Settled {
  import opened Domain
  import opened Policies
  import opened Ledger
  import opened Gates
  import opened Workflow
  import opened Sessions
  import opened Safety
  import opened Runs

  // ------------------------------------------- artifacts that are left alone

  /** Superseded, expired or fully paid: nothing more is expected of the artifact. */
  predicate Idle(a: Artifact) { !Payable(a) }

  predicate LeavesIdle(c: Case, d: Case) {
    && |c.artifacts| <= |d.artifacts|
    && forall k :: 0 <= k < |c.artifacts| && Idle(c.artifacts[k]) ==> d.artifacts[k] == c.artifacts[k]
  }

  predicate Ascending(positions: seq<nat>) { forall j, k :: 0 <= j < k < |positions| ==> positions[j] < positions[k] }

  lemma {:induction false} PollLeavesIdle(c: Case, pending: seq<nat>, answers: nat -> GatewayAnswer)
    requires Within(pending, |c.artifacts|) && Ascending(pending)
    requires forall k :: k in pending ==> !Idle(c.artifacts[k])
    ensures LeavesIdle(c, PollAll(c, pending, answers))
    decreases |pending|
  {
    if pending != [] && !c.terminal {
      var i, rest := pending[0], pending[1..];
      OnlyMintingCloses(c, i, answers(i));
      assert i !in rest;
      PollLeavesIdle(Check(c, i, answers(i)), rest, answers);
    }
  }

  lemma {:induction false} SweepLeavesIdle(c: Case, due: seq<nat>, answers: nat -> GatewayAnswer, now: Instant,
                                           policy: Policy)
    requires Within(due, |c.artifacts|) && Ascending(due) && Valid(policy)
    requires forall k :: k in due ==> !Idle(c.artifacts[k])
    ensures LeavesIdle(c, SweepAll(c, due, answers, now, policy))
    decreases |due|
  {
    if due != [] {
      var i, rest := due[0], due[1..];
      ProcessArtifacts(c, i, answers(i), now, policy);
      assert i !in rest;
      SweepLeavesIdle(ProcessDue(c, i, answers(i), now, policy), rest, answers, now, policy);
    }
  }

  lemma EnactLeavesIdle(c: Case, d: Decision, env: MintEnv, clock: Instant)
    ensures LeavesIdle(c, Enact(c, d, env, clock))
  {
  }

  lemma ReplyLeavesIdle(c: Case, v: Verdict, p: Payload, reminded: bool, clock: Instant, policy: Policy, env: MintEnv)
    requires Valid(policy)
    ensures LeavesIdle(c, Reply(c, v, p, reminded, clock, policy, env))
  {
    EnactLeavesIdle(c, Decide(c, p, clock, policy), env, clock);
  }

  lemma OpeningLeavesIdle(c: Case, clock: Instant, policy: Policy, env: MintEnv)
    requires Valid(policy)
    ensures LeavesIdle(c, Opening(c, clock, policy, env))
  {
    EnactLeavesIdle(Opened(c), Decide(Opened(c), OpeningPayload(c.failureClass), clock, policy), env, clock);
  }

  /** Every step but the status check and the forced payment leaves such artifacts alone. */
  lemma OtherStepsLeaveIdle(c: Case, e: Event)
    requires Admissible(e) && !e.StatusCheck? && !e.ForcedPayment?
    ensures LeavesIdle(c, Step(c, e))
  {
    match e
    case NewSession =>
    case Begin(clock, policy, env) => OpeningLeavesIdle(c, clock, policy, env);
    case Message(v, p, reminded, clock, policy, env) => ReplyLeavesIdle(c, v, p, reminded, clock, policy, env);
    case NamedTool(tool, request, days, clock, policy, env) =>
      EnactLeavesIdle(c, ToolDecision(c, tool, request, days, clock, policy), env, clock);
    case CallButton(clock, policy) => CallButtonWritesOnlyTheAudit(c, clock, policy);
    case Graph(input) => RunFromKeepsTheLedger(Some(Ingest), GraphState(c, None, [], []), input);
    case Poller(answers) => PollLeavesIdle(c, Select(c.artifacts, Pollable), answers);
    case Tick(answers, now, policy) => SweepLeavesIdle(c, DueNow(c, now), answers, now, policy);
  }

  predicate LeavesClosed(c: Case, d: Case) {
    && |c.artifacts| <= |d.artifacts|
    && forall k :: 0 <= k < |c.artifacts| && c.artifacts[k].status.Closed? ==> d.artifacts[k] == c.artifacts[k]
  }

  lemma StatusCheckLeavesClosed(c: Case, answer: GatewayAnswer)
    requires NewestOpen(c.artifacts)
    ensures LeavesClosed(c, CheckLatest(c, answer))
  {
    if c.artifacts != [] {
      OnlyMintingCloses(c, |c.artifacts| - 1, answer);
    }
  }

  lemma ForcedPaymentLeavesClosed(c: Case, i: nat)
    requires i < |c.artifacts| ==> !c.artifacts[i].status.Closed?
    ensures LeavesClosed(c, ForcePaid(c, i))
  {
  }

  /** No poll, check or sweep ever touches a superseded artifact; nor does anything else
      but the demo's forced payment of that very artifact. */
  lemma OnlyAForcedPaymentReopens(c: Case, e: Event)
    requires Admissible(e) && NewestOpen(c.artifacts)
    requires e.ForcedPayment? && e.i < |c.artifacts| ==> !c.artifacts[e.i].status.Closed?
    ensures LeavesClosed(c, Step(c, e))
  {
    if e.StatusCheck? {
      StatusCheckLeavesClosed(c, e.answer);
    } else if e.ForcedPayment? {
      ForcedPaymentLeavesClosed(c, e.i);
    } else {
      OtherStepsLeaveIdle(c, e);
    }
  }

  // ------------------------------------------------------------- paid for good

  /** An artifact without a provider is not polled. */
  function AfterPoll(a: Artifact, answer: GatewayAnswer): Artifact {
    if a.providerId.None? then a else Polled(a, answer)
  }

  predicate PaidAt(c: Case, i: nat) { i < |c.artifacts| && c.artifacts[i].status.Paid? }

  /** The on-demand check of a paid artifact that takes its payment back. */
  predicate TakesBack(c: Case, e: Event, i: nat) {
    && e.StatusCheck? && i == |c.artifacts| - 1
    && c.artifacts[i].providerId.Some? && !ReportsAllOfIt(c.artifacts[i], e.answer)
  }

  lemma CheckOfPaidArtifact(c: Case, answer: GatewayAnswer, i: nat)
    requires PaidAt(c, i)
    ensures var d := CheckLatest(c, answer);
      && |d.artifacts| == |c.artifacts| && (i < |c.artifacts| - 1 ==> d.artifacts[i] == c.artifacts[i])
      && (i == |c.artifacts| - 1 ==> d.artifacts[i] == AfterPoll(c.artifacts[i], answer))
  {
    OnlyMintingCloses(c, |c.artifacts| - 1, answer);
  }

  lemma ForcedPaymentLeavesPaid(c: Case, k: nat, i: nat)
    requires PaidAt(c, i)
    ensures |ForcePaid(c, k).artifacts| == |c.artifacts| && ForcePaid(c, k).artifacts[i] == c.artifacts[i]
  {
  }

  /** A paid artifact stays paid in every step but one: an on-demand check that finds it
      the newest and reports less than all of it, or that it expired. */
  lemma PaidStaysPaidExactlyUnless(c: Case, e: Event, i: nat)
    requires Admissible(e) && PaidAt(c, i)
    ensures PaidAt(Step(c, e), i) <==> !TakesBack(c, e, i)
    ensures |Step(c, e).artifacts| >= |c.artifacts|
    ensures var a, b := c.artifacts[i], Step(c, e).artifacts[i];
      b.amount == a.amount && b.providerId == a.providerId && b.acceptPartial == a.acceptPartial
  {
    if e.StatusCheck? {
      CheckOfPaidArtifact(c, e.answer, i);
    } else if e.ForcedPayment? {
      ForcedPaymentLeavesPaid(c, e.i, i);
    } else {
      OtherStepsLeaveIdle(c, e);
      assert Idle(c.artifacts[i]);
    }
  }

  ghost predicate AllAdmissible(events: seq<Event>) { forall e :: e in events ==> Admissible(e) }

  ghost predicate PaidThroughout(c: Case, events: seq<Event>, i: nat)
    requires AllAdmissible(events)
  {
    PaidAt(Run(c, events), i) && (events != [] ==> PaidThroughout(c, events[..|events| - 1], i))
  }

  ghost predicate NeverTakenBack(c: Case, events: seq<Event>, i: nat)
    requires AllAdmissible(events)
  {
    events != [] ==>
      var before := events[..|events| - 1];
      NeverTakenBack(c, before, i) && !TakesBack(Run(c, before), events[|events| - 1], i)
  }

  /** Over whole runs: an instalment that was paid stays paid throughout exactly when no
      such check ever comes. */
  lemma {:induction false} PaidForGoodExactlyWhen(c: Case, events: seq<Event>, i: nat)
    requires AllAdmissible(events) && PaidAt(c, i)
    ensures PaidThroughout(c, events, i) <==> NeverTakenBack(c, events, i)
  {
    if events != [] {
      var before, e := events[..|events| - 1], events[|events| - 1];
      PaidForGoodExactlyWhen(c, before, i);
      if PaidThroughout(c, before, i) {
        PaidStaysPaidExactlyUnless(Run(c, before), e, i);
      }
    }
  }

  // --------------------------------------------- plans that leave the sweep

  /** After a poll an overdue plan stays in the sweep exactly when it cannot be polled, or
      less than the bill is reported, the provider does not call it paid, any amount it
      reports is below the instalment, and it calls it expired only beside one. */
  lemma PlanStaysInTheSweepExactlyWhen(c: Case, i: nat, answer: GatewayAnswer, now: Instant)
    requires i < |c.artifacts| && Overdue(c.artifacts[i], now) && !TerminalState(c.state)
    ensures i in DueNow(ReconcileArtifact(c, i, answer), now) <==>
      || c.artifacts[i].providerId.None?
      || (&& ReportedPaid(c.artifacts[i], answer) < c.bill
          && answer.status != Some("paid")
          && (ReportsAnAmount(answer) ==> answer.amountPaid.value < c.artifacts[i].amount)
          && (answer.status == Some("expired") ==> ReportsAnAmount(answer)))
  {
  }

  /** A plan whose first instalment is fully paid, below the bill, has a balance left and
      drops out of the sweep, and it stays out for as long as no check takes it back. */
  lemma PaidInstalmentIsNotChased(c: Case, i: nat, answer: GatewayAnswer, events: seq<Event>, now: Instant)
    requires i < |c.artifacts| && PolledPlan(c.artifacts[i])
    requires ReportsAllOfIt(c.artifacts[i], answer) && ReportedPaid(c.artifacts[i], answer) < c.bill
    requires AllAdmissible(events) && NeverTakenBack(ReconcileArtifact(c, i, answer), events, i)
    ensures var d := ReconcileArtifact(c, i, answer);
      && Balance(d) == c.bill - ReportedPaid(c.artifacts[i], answer) > 0 && d.state == c.state
      && i !in DueNow(Run(d, events), now)
  {
    PaidForGoodExactlyWhen(ReconcileArtifact(c, i, answer), events, i);
  }

  /** An on-demand check can put a paid instalment back into the sweep. */
  lemma ACheckCanPutItBack()
    ensures var plan := Artifact(Link, Some("plink"), 50, true, Some(50), Some(0), Created, 0, None);
      var c := Case(100, 1, 0, 3, Intervening, Some(50), Some(0), Some("plink"), [plan], [], 0, false);
      var d := ReconcileArtifact(c, 0, GatewayAnswer(Some("paid"), None));
      && 0 !in DueNow(d, 10)
      && 0 in DueNow(CheckLatest(d, GatewayAnswer(None, Some(10))), 10)
  {
  }

  // ------------------------------------------------------------ quiet hours

  /** Whether a case is recovered after a plan was polled. */
  predicate Recovers(recovered: bool, bill: int, a: Artifact, answer: GatewayAnswer) {
    if a.providerId.None? then recovered
    else ReportedPaid(a, answer) >= bill || (recovered && !ReportsAPart(a, answer))
  }

  /** The last plan polled that is covered, or left partly paid, decides. */
  predicate EndsRecovered(recovered: bool, bill: int, artifacts: seq<Artifact>, due: seq<nat>, answers: nat -> GatewayAnswer)
    requires Within(due, |artifacts|)
    decreases |due|
  {
    if due == [] then recovered
    else
      EndsRecovered(Recovers(recovered, bill, artifacts[due[0]], answers(due[0])), bill, artifacts, due[1..], answers)
  }

  /** Open, or recovered: what a case that entered the sweep open can be during it. */
  predicate OpenOrRecovered(s: LifecycleState) { s.Recovered? || !TerminalState(s) }

  lemma QuietGateDenies(c: Case, now: Instant, policy: Policy)
    requires Valid(policy) && QuietHours(now)
    ensures FollowUpDecision(c, now, policy) == Denied(Tool.SendWhatsApp, Waiting, TraiQuietHours)
  {
  }

  lemma QuietChase(r: Case, i: nat, now: Instant, policy: Policy)
    requires i < |r.artifacts| && Valid(policy) && QuietHours(now)
    ensures var d := Chase(r, i, now, policy);
      && d.artifacts == r.artifacts && d.bill == r.bill
      && d.state == if StillOwed(r, i) then Waiting else r.state
  {
    QuietGateDenies(r, now, policy);
  }

  /** One overdue plan in quiet hours. */
  lemma QuietProcess(c: Case, i: nat, answer: GatewayAnswer, now: Instant, policy: Policy)
    requires i < |c.artifacts| && Valid(policy) && QuietHours(now) && c.artifacts[i].acceptPartial
    requires OpenOrRecovered(c.state)
    ensures var d := ProcessDue(c, i, answer, now, policy);
      && d.artifacts == c.artifacts[i := AfterPoll(c.artifacts[i], answer)] && d.bill == c.bill
      && OpenOrRecovered(d.state)
      && (d.state.Recovered? <==> Recovers(c.state.Recovered?, c.bill, c.artifacts[i], answer))
  {
    QuietChase(ReconcileArtifact(c, i, answer), i, now, policy);
  }

  lemma {:induction false} SameDueSameEnd(recovered: bool, bill: int, xs: seq<Artifact>, ys: seq<Artifact>, due: seq<nat>,
                                          answers: nat -> GatewayAnswer)
    requires Within(due, |xs|) && |xs| == |ys| && forall k :: k in due ==> xs[k] == ys[k]
    ensures EndsRecovered(recovered, bill, xs, due, answers) == EndsRecovered(recovered, bill, ys, due, answers)
    decreases |due|
  {
    if due != [] {
      SameDueSameEnd(Recovers(recovered, bill, xs[due[0]], answers(due[0])), bill, xs, ys, due[1..], answers);
    }
  }

  /** The overdue plans of a tick in quiet hours: each is polled and nothing else, and the
      polls alone decide whether the case is still open. */
  lemma {:induction false} QuietSweep(c: Case, due: seq<nat>, answers: nat -> GatewayAnswer, now: Instant, policy: Policy)
    requires Within(due, |c.artifacts|) && Ascending(due) && Valid(policy) && QuietHours(now)
    requires OpenOrRecovered(c.state) && forall k :: k in due ==> c.artifacts[k].acceptPartial
    ensures var d := SweepAll(c, due, answers, now, policy);
      && (forall k :: 0 <= k < |c.artifacts| ==>
            d.artifacts[k] == if k in due then AfterPoll(c.artifacts[k], answers(k)) else c.artifacts[k])
      && OpenOrRecovered(d.state)
      && (d.state.Recovered? <==> EndsRecovered(c.state.Recovered?, c.bill, c.artifacts, due, answers))
    decreases |due|
  {
    if due != [] {
      var i, rest := due[0], due[1..];
      QuietProcess(c, i, answers(i), now, policy);
      assert i !in rest;
      var mid := ProcessDue(c, i, answers(i), now, policy);
      QuietSweep(mid, rest, answers, now, policy);
      SameDueSameEnd(mid.state.Recovered?, c.bill, c.artifacts, mid.artifacts, rest, answers);
    }
  }

  /** A plan that was due and is deferred by quiet hours is due again exactly when the poll
      left it payable and the case open; and then the case waits if something is owed. */
  lemma QuietDeferralKeepsTheArtifactDue(c: Case, i: nat, answer: GatewayAnswer, now: Instant, later: Instant, policy: Policy)
    requires i < |c.artifacts| && Valid(policy) && QuietHours(now) && now <= later
    requires Overdue(c.artifacts[i], now) && !TerminalState(c.state)
    ensures var d := ProcessDue(c, i, answer, now, policy);
      && FollowUps(d, i) == FollowUps(c, i)
      && (i in DueNow(d, later) <==>
            !TerminalState(ReconcileArtifact(c, i, answer).state) && Payable(ReconcileArtifact(c, i, answer).artifacts[i]))
      && (StillOwed(ReconcileArtifact(c, i, answer), i) ==> d.state == Waiting && i in DueNow(d, later))
  {
    FollowsUpExactlyWhen(c, i, answer, now, policy);
    ProcessCounts(c, i, answer, now, policy, FollowUpOf(i));
    ReconcileArtifacts(c, i, answer);
    QuietChase(ReconcileArtifact(c, i, answer), i, now, policy);
  }

  /** No dispatch of any kind is written by a tick in quiet hours. */
  lemma {:induction false} QuietSweepSendsNothing(c: Case, due: seq<nat>, answers: nat -> GatewayAnswer, now: Instant,
                                                  policy: Policy, p: AuditRow -> bool)
    requires Within(due, |c.artifacts|) && Valid(policy) && QuietHours(now)
    requires forall r: AuditRow :: p(r) ==> IsDispatch(r)
    ensures Count(SweepAll(c, due, answers, now, policy).audit, p) == Count(c.audit, p)
    decreases |due|
  {
    if due != [] {
      FollowsUpExactlyWhen(c, due[0], answers(due[0]), now, policy);
      ProcessCounts(c, due[0], answers(due[0]), now, policy, p);
      QuietSweepSendsNothing(ProcessDue(c, due[0], answers(due[0]), now, policy), due[1..], answers, now, policy, p);
    }
  }

  /** A whole tick in quiet hours sends nothing at all. The plans it found due are polled,
      the others are left as they are; and at any later tick exactly those plans are due
      that are overdue as the polls left them, unless the polls left the case recovered. */
  lemma QuietTickKeepsPlansDue(c: Case, answers: nat -> GatewayAnswer, now: Instant, later: Instant, policy: Policy, k: nat)
    requires Valid(policy) && QuietHours(now) && k < |c.artifacts|
    ensures var d, due := Sweep(c, answers, now, policy), DueNow(c, now);
      && Count(d.audit, IsDispatch) == Count(c.audit, IsDispatch)
      && (forall i: nat :: FollowUps(d, i) == FollowUps(c, i))
      && (k in DueNow(d, later) <==>
            && !TerminalState(c.state) && !EndsRecovered(false, c.bill, c.artifacts, due, answers)
            && Overdue(if k in due then AfterPoll(c.artifacts[k], answers(k)) else c.artifacts[k], later))
  {
    var due := DueNow(c, now);
    QuietSweepSendsNothing(c, due, answers, now, policy, IsDispatch);
    forall i: nat ensures FollowUps(Sweep(c, answers, now, policy), i) == FollowUps(c, i) {
      QuietSweepSendsNothing(c, due, answers, now, policy, FollowUpOf(i));
    }
    if !TerminalState(c.state) {
      QuietSweep(c, due, answers, now, policy);
    }
  }
}
