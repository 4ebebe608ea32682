/** Runs in which a customer pays the whole bill and is written to all the same: by a link
    beside a part-paid plan, by two plans, and by a link before a plan that is never polled. */
module Histories {
  import opened Domain
  import opened Policies
  import opened Ledger
  import opened Sessions
  import opened Safety
  import opened Settled
  import opened Balances
  import opened Chasing

  // ------------------------------------------------------------- composing runs

  lemma RunExtends(c: Case, events: seq<Event>, e: Event)
    requires AllAdmissible(events) && Admissible(e)
    ensures AllAdmissible(events + [e]) && Run(c, events + [e]) == Step(Run(c, events), e)
  {
    assert (events + [e])[..|events|] == events;
  }

  lemma OneMoreStep(c: Case, d: Case, a: seq<Event>, front: seq<Event>, e: Event)
    requires AllAdmissible(a + front) && AllAdmissible(front) && Admissible(e)
    requires Run(c, a + front) == Run(d, front)
    ensures AllAdmissible(a + (front + [e])) && AllAdmissible(front + [e])
    ensures Run(c, a + (front + [e])) == Run(d, front + [e])
  {
    RunExtends(c, a + front, e);
    RunExtends(d, front, e);
    assert a + front + [e] == a + (front + [e]);
  }

  lemma {:induction false} RunAppends(c: Case, a: seq<Event>, b: seq<Event>)
    requires AllAdmissible(a) && AllAdmissible(b)
    ensures AllAdmissible(a + b) && Run(c, a + b) == Run(Run(c, a), b)
  {
    if b == [] {
      assert a + b == a;
    } else {
      var front, e := b[..|b| - 1], b[|b| - 1];
      RunAppends(c, a, front);
      OneMoreStep(c, Run(c, a), a, front, e);
      assert front + [e] == b;
    }
  }

  lemma RunOfOne(c: Case, e: Event)
    requires Admissible(e)
    ensures AllAdmissible([e]) && Run(c, [e]) == Step(c, e)
  {
    assert [e][..0] == [];
  }

  /** Two steps in a row, as a run. */
  lemma RunOfTwo(c: Case, e: Event, f: Event) returns (events: seq<Event>)
    requires Admissible(e) && Admissible(f)
    ensures AllAdmissible(events) && Run(c, events) == Step(Step(c, e), f)
  {
    RunOfOne(c, e);
    RunOfOne(Step(c, e), f);
    RunAppends(c, [e], [f]);
    events := [e] + [f];
  }

  // ---------------------------------------------------------------- the steps

  const NOON := 12 * HOUR
  const LATER := NOON + 2 * DAY
  const POLLED := MintEnv(Some("plink"), false, 0, 3)
  const SIMULATED := MintEnv(None, false, 0, 3)
  const POLICY := Policy(0.0, None, true, 50, {PaymentLink, WhatsApp},
                         {Action.OfferPartialPlan, Action.GeneratePaymentLink, Action.SendWhatsApp})

  function Offer(amount: int, env: MintEnv): Event {
    NamedTool(Tool.OfferPartialPlan, Some(amount), Some(1), NOON, POLICY, env)
  }

  const LINK := NamedTool(Tool.GeneratePaymentLink, None, None, NOON, POLICY, POLLED)
  const NUDGE := NamedTool(Tool.SendWhatsApp, None, None, NOON, POLICY, POLLED)

  function Reports(paise: int): Event { StatusCheck(GatewayAnswer(None, Some(paise))) }

  const REPORTS_PAID := StatusCheck(GatewayAnswer(Some("paid"), None))

  function Plan(amount: int, providerId: Option<string>, paid: int, status: ArtifactStatus): Artifact {
    Artifact(Link, providerId, amount, true, Some(amount), Some(NOON + DAY), status, paid, None)
  }

  function FullLink(paid: int, status: ArtifactStatus): Artifact {
    Artifact(Link, Some("plink"), 100, false, None, None, status, paid, None)
  }

  /** A bill of 100, in the class whose artifacts are plain links. */
  predicate Plain(c: Case) { c.bill == 100 && c.failureClass == 1 }

  /** Nothing awaits its first payment, so minting supersedes nothing. */
  predicate NoneAwaited(artifacts: seq<Artifact>) {
    forall k :: 0 <= k < |artifacts| ==> !artifacts[k].status.Created?
  }

  lemma OfferIsGranted(c: Case, amount: int, env: MintEnv)
    requires Plain(c) && amount in {50, 60}
    ensures Admissible(Offer(amount, env))
    ensures var d := ToolDecision(c, Tool.OfferPartialPlan, Some(amount), Some(1), NOON, POLICY);
      && d.allowed && d.channel == Some(PaymentLink) && d.action == Some(Action.OfferPartialPlan)
      && d.terminalState.None? && d.amount == Some(amount) && d.deadlineDays == Some(1)
  {
    MinimumPctExactly(amount, 100, 50);
  }

  lemma OfferStep(c: Case, amount: int, env: MintEnv)
    requires Plain(c) && NoneAwaited(c.artifacts) && amount in {50, 60} && env in {POLLED, SIMULATED}
    ensures Admissible(Offer(amount, env))
    ensures var d := Step(c, Offer(amount, env));
      && Plain(d) && d.artifacts == c.artifacts + [Plan(amount, env.providerId, 0, Created)]
      && d.state.Intervening? && Balance(d) == 100 - amount
  {
    OfferIsGranted(c, amount, env);
    assert CloseCreated(c.artifacts) == c.artifacts;
  }

  lemma LinkStep(c: Case)
    requires Plain(c) && NoneAwaited(c.artifacts)
    ensures Admissible(LINK)
    ensures var d := Step(c, LINK);
      && Plain(d) && d.artifacts == c.artifacts + [FullLink(0, Created)]
      && d.state.Intervening? && Balance(d) == Balance(c)
  {
    var d := ToolDecision(c, Tool.GeneratePaymentLink, None, None, NOON, POLICY);
    assert d.allowed && d.terminalState.None? && d.amount == Some(100);
    assert CloseCreated(c.artifacts) == c.artifacts;
  }

  lemma NudgeStep(c: Case)
    requires Plain(c)
    ensures Admissible(NUDGE)
    ensures var d := Step(c, NUDGE);
      Plain(d) && d.artifacts == c.artifacts && d.state.Intervening? && Balance(d) == Balance(c)
  {
    var d := ToolDecision(c, Tool.SendWhatsApp, None, None, NOON, POLICY);
    assert d.allowed && d.terminalState.None? && d.channel == Some(WhatsApp);
  }

  /** The newest artifact, a plan, is reported part paid. */
  lemma PartPaymentStep(c: Case, before: seq<Artifact>, amount: int, paid: int)
    requires Plain(c) && c.artifacts == before + [Plan(amount, Some("plink"), 0, Created)]
    requires c.state.Intervening? && 0 < paid < amount < 100
    ensures var d := Step(c, Reports(paid));
      && Plain(d) && d.artifacts == before + [Plan(amount, Some("plink"), paid, PartiallyPaid)]
      && d.state.Waiting? && Balance(d) == 100 - paid
  {
    assert c.artifacts[|before| := Plan(amount, Some("plink"), paid, PartiallyPaid)]
        == before + [Plan(amount, Some("plink"), paid, PartiallyPaid)];
  }

  /** The newest artifact, a plan, is reported paid. */
  lemma PlanPaymentStep(c: Case, before: seq<Artifact>, amount: int)
    requires Plain(c) && c.artifacts == before + [Plan(amount, Some("plink"), 0, Created)]
    requires c.state.Intervening? && 0 < amount < 100
    ensures var d := Step(c, REPORTS_PAID);
      && Plain(d) && d.artifacts == before + [Plan(amount, Some("plink"), amount, Paid)]
      && d.state.Intervening? && Balance(d) == 100 - amount
  {
    assert c.artifacts[|before| := Plan(amount, Some("plink"), amount, Paid)]
        == before + [Plan(amount, Some("plink"), amount, Paid)];
  }

  /** The newest artifact, a link over the bill, is reported paid. */
  lemma LinkPaymentStep(c: Case, before: seq<Artifact>)
    requires Plain(c) && c.artifacts == before + [FullLink(0, Created)] && c.state.Intervening?
    ensures var d := Step(c, REPORTS_PAID);
      && Plain(d) && d.artifacts == before + [FullLink(100, Paid)] && d.state.Recovered? && Balance(d) == Balance(c)
  {
    assert c.artifacts[|before| := FullLink(100, Paid)] == before + [FullLink(100, Paid)];
  }

  // ------------------------------------------------------------- two steps each

  lemma PaysAPart(c: Case, amount: int, paid: int) returns (events: seq<Event>)
    requires Plain(c) && NoneAwaited(c.artifacts) && amount in {50, 60} && 0 < paid < amount
    ensures AllAdmissible(events)
    ensures var d := Run(c, events);
      && Plain(d) && d.artifacts == c.artifacts + [Plan(amount, Some("plink"), paid, PartiallyPaid)]
      && d.state.Waiting? && Balance(d) == 100 - paid
  {
    OfferStep(c, amount, POLLED);
    PartPaymentStep(Step(c, Offer(amount, POLLED)), c.artifacts, amount, paid);
    events := RunOfTwo(c, Offer(amount, POLLED), Reports(paid));
  }

  lemma PaysAPlan(c: Case, amount: int) returns (events: seq<Event>)
    requires Plain(c) && NoneAwaited(c.artifacts) && amount in {50, 60}
    ensures AllAdmissible(events)
    ensures var d := Run(c, events);
      && Plain(d) && d.artifacts == c.artifacts + [Plan(amount, Some("plink"), amount, Paid)]
      && d.state.Intervening? && Balance(d) == 100 - amount
  {
    OfferStep(c, amount, POLLED);
    PlanPaymentStep(Step(c, Offer(amount, POLLED)), c.artifacts, amount);
    events := RunOfTwo(c, Offer(amount, POLLED), REPORTS_PAID);
  }

  lemma PaysTheBill(c: Case) returns (events: seq<Event>)
    requires Plain(c) && NoneAwaited(c.artifacts)
    ensures AllAdmissible(events)
    ensures var d := Run(c, events);
      && Plain(d) && d.artifacts == c.artifacts + [FullLink(100, Paid)]
      && d.state.Recovered? && Balance(d) == Balance(c)
  {
    LinkStep(c);
    LinkPaymentStep(Step(c, LINK), c.artifacts);
    events := RunOfTwo(c, LINK, REPORTS_PAID);
  }

  // ---------------------------------------------------------------- the runs

  /** Everything is paid, and still plan `i` is due and the sweeper writes about it when the
      provider has nothing new to say. */
  predicate ChasedThoughPaid(c: Case, i: nat) {
    && SumPaid(c) >= c.bill && i in DueNow(c, LATER) && i < |c.artifacts|
    && FollowsUp(c, i, GatewayAnswer(None, None), LATER, POLICY)
  }

  lemma OpenPlanIsChased(c: Case, i: nat)
    requires i < |c.artifacts| && !TerminalState(c.state) && SumPaid(c) >= c.bill
    requires Overdue(c.artifacts[i], LATER)
    requires if c.artifacts[i].providerId.Some? then c.artifacts[i].amountPaid < c.bill else Balance(c) > 0
    ensures ChasedThoughPaid(c, i)
  {
    FollowUpIsDecidedBeforeThePoll(c, i, GatewayAnswer(None, None), LATER, POLICY);
  }

  lemma PaidOnTwo(x: Artifact, y: Artifact)
    ensures PaidOn([x, y]) == x.amountPaid + y.amountPaid
  {
    assert [x][..0] == [] && PaidOn([x]) == x.amountPaid;
    assert [x, y][..1] == [x];
  }

  /** Thirty of a plan is paid, then the whole bill by a link: the case is recovered with a
      balance of seventy. A nudge later the plan is written about. */
  lemma PayerByLinkIsChased(c: Case) returns (paid: seq<Event>, events: seq<Event>)
    requires Plain(c) && c.artifacts == []
    ensures AllAdmissible(paid) && RecoveredButOwing(Run(c, paid)) && Balance(Run(c, paid)) == 70
    ensures AllAdmissible(events) && Covered(Run(c, events)) && ChasedThoughPaid(Run(c, events), 0)
  {
    var part := PaysAPart(c, 50, 30);
    var bill := PaysTheBill(Run(c, part));
    RunAppends(c, part, bill);
    paid := part + bill;
    var d := Run(c, paid);
    assert d.artifacts == [Plan(50, Some("plink"), 30, PartiallyPaid), FullLink(100, Paid)];
    NudgeStep(d);
    RunOfOne(d, NUDGE);
    RunAppends(c, paid, [NUDGE]);
    events := paid + [NUDGE];
    PaidOnTwo(d.artifacts[0], d.artifacts[1]);
    OpenPlanIsChased(Run(c, events), 0);
    assert Run(c, events).artifacts[1].amountPaid >= Run(c, events).bill;
  }

  /** Sixty is paid by one plan and forty of another: the bill is paid, no artifact covers
      it, sixty is booked as owing, and the second plan is written about. */
  lemma PayerByInstalmentsIsChased(c: Case) returns (events: seq<Event>)
    requires Plain(c) && c.artifacts == []
    ensures AllAdmissible(events)
    ensures var d := Run(c, events);
      SumPaid(d) == d.bill == 100 && !Covered(d) && Balance(d) == 60 && ChasedThoughPaid(d, 1)
  {
    var first := PaysAPlan(c, 60);
    var second := PaysAPart(Run(c, first), 50, 40);
    RunAppends(c, first, second);
    events := first + second;
    var d := Run(c, events);
    assert d.artifacts == [Plan(60, Some("plink"), 60, Paid), Plan(50, Some("plink"), 40, PartiallyPaid)];
    PaidOnTwo(d.artifacts[0], d.artifacts[1]);
    OpenPlanIsChased(d, 1);
  }

  /** The bill is paid by a link, and a plan is offered while no provider answers: it is
      never polled, books fifty as owing, and is written about. */
  lemma PayerIsChasedAboutASimulatedPlan(c: Case) returns (events: seq<Event>)
    requires Plain(c) && c.artifacts == []
    ensures AllAdmissible(events)
    ensures var d := Run(c, events);
      Covered(d) && |d.artifacts| == 2 && d.artifacts[1].providerId.None? && ChasedThoughPaid(d, 1)
  {
    var bill := PaysTheBill(c);
    var d := Run(c, bill);
    OfferStep(d, 50, SIMULATED);
    RunOfOne(d, Offer(50, SIMULATED));
    RunAppends(c, bill, [Offer(50, SIMULATED)]);
    events := bill + [Offer(50, SIMULATED)];
    var e := Run(c, events);
    assert e.artifacts == [FullLink(100, Paid), Plan(50, None, 0, Created)];
    PaidOnTwo(e.artifacts[0], e.artifacts[1]);
    assert e.artifacts[0].amountPaid >= e.bill;
    OpenPlanIsChased(e, 1);
  }
}
