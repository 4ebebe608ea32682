/** What the poller, the on-demand check and the forced payment reach. */
module Polling {
  import opened Domain
  import opened Policies
  import opened Ledger
  import opened Sessions
  import opened Safety
  import opened Settled
  import opened Outcomes
  import opened Minting

  // --------------------------------------------------------------- one poll

  /** The state after a poll: recovered when a plan is paid the bill, or any other artifact all
      of its amount; waiting when a plan is left partly paid below the bill; and a case that
      was escalated or cancelled only leaves that state for a plan that covers the bill. */
  lemma StateAfterAPoll(c: Case, i: nat, answer: GatewayAnswer)
    requires i < |c.artifacts|
    ensures var a := c.artifacts[i];
      ReconcileArtifact(c, i, answer).state
      == if a.providerId == None then c.state
         else if a.acceptPartial && ReportedPaid(a, answer) >= c.bill then Recovered
         else if c.state in {Escalated, Cancelled} then c.state
         else if a.acceptPartial && ReportsAPart(a, answer) then Waiting
         else if !a.acceptPartial && ReportsAllOfIt(a, answer) then Recovered
         else c.state
  {
  }

  /** The status and the payment of an artifact after a poll: paid in full at the provider's
      word, what it reports as paid by the amount, expired at its word when it reports no
      amount, and else as it was. */
  lemma ArtifactAfterAPoll(a: Artifact, answer: GatewayAnswer)
    requires a.providerId != None
    ensures var paid := answer.amountPaid.GetOr(0);
      AfterPoll(a, answer)
      == if answer.status == Some("paid") then a.(status := Paid, amountPaid := a.amount)
         else if paid >= 1 && paid >= a.amount then a.(status := Paid, amountPaid := paid)
         else if paid >= 1 then a.(status := PartiallyPaid, amountPaid := paid)
         else if answer.status == Some("expired") then a.(status := Expired)
         else a
  {
  }

  /** A payment was noticed: the poll changed the artifact, which is now paid, in part or in
      full. */
  predicate Notices(a: Artifact, answer: GatewayAnswer) {
    && AfterPoll(a, answer).status in {Paid, PartiallyPaid}
    && (AfterPoll(a, answer).status != a.status || AfterPoll(a, answer).amountPaid != a.amountPaid)
  }

  /** A check polls one artifact and no other, writes one row exactly when it notices a payment,
      and finishes the session exactly when that leaves the case recovered. */
  lemma CheckOutcome(c: Case, i: nat, answer: GatewayAnswer)
    requires i < |c.artifacts|
    ensures var a, d, r := c.artifacts[i], Check(c, i, answer), ReconcileArtifact(c, i, answer);
      && d.artifacts == c.artifacts[i := AfterPoll(a, answer)]
      && d.state == r.state && d.balanceDue == r.balanceDue && d.bill == c.bill && d.tickets == c.tickets
      && d.audit == c.audit
                    + (if Notices(a, answer) then [AuditRow(NodeName.Reconcile, StateTransition, None, None, None, None)] else [])
      && (d.terminal <==> c.terminal || (Notices(a, answer) && r.state == Recovered))
  {
  }

  /** The on-demand check polls the newest artifact. */
  lemma StatusCheckOutcome(c: Case, answer: GatewayAnswer)
    ensures c.artifacts == [] ==> CheckLatest(c, answer) == c
    ensures c.artifacts != [] ==>
      var n := |c.artifacts| - 1;
      CheckLatest(c, answer).artifacts == c.artifacts[..n] + [AfterPoll(c.artifacts[n], answer)]
  {
    if c.artifacts != [] {
      CheckOutcome(c, |c.artifacts| - 1, answer);
    }
  }

  // -------------------------------------------------------------- the poller

  /** The provider knows the artifact, and a payment is still expected. */
  predicate Expects(a: Artifact) { a.providerId != None && a.status in {Created, PartiallyPaid} }

  /** From position `from` up to `n` every artifact on which a payment is expected was polled,
      and nothing else was touched. */
  predicate PolledBetween(c: Case, d: Case, answers: nat -> GatewayAnswer, from: nat, n: nat) {
    && n <= |c.artifacts| == |d.artifacts|
    && forall k :: 0 <= k < |c.artifacts| ==>
         d.artifacts[k]
         == if from <= k < n && Expects(c.artifacts[k]) then AfterPoll(c.artifacts[k], answers(k)) else c.artifacts[k]
  }

  /** The balance is the one booked by the newest plan polled below `n`. */
  function BookedBelow(c: Case, answers: nat -> GatewayAnswer, from: nat, n: nat): Option<int>
    requires n <= |c.artifacts|
  {
    if n <= from then c.balanceDue
    else
      var a := c.artifacts[n - 1];
      if Expects(a) && a.acceptPartial then Some(MaxInt(c.bill - ReportedPaid(a, answers(n - 1)), 0))
      else BookedBelow(c, answers, from, n - 1)
  }

  /** The poll reached everything from `from` up to `n`. */
  predicate Reached(c: Case, d: Case, answers: nat -> GatewayAnswer, from: nat, n: nat) {
    PolledBetween(c, d, answers, from, n) && d.balanceDue == BookedBelow(c, answers, from, n)
  }

  /** It ended with position `m`, whose payment recovered the case. */
  predicate EndedAt(c: Case, d: Case, answers: nat -> GatewayAnswer, from: nat, m: nat) {
    && from <= m < |c.artifacts| && Expects(c.artifacts[m]) && Notices(c.artifacts[m], answers(m))
    && Reached(c, d, answers, from, m + 1) && d.state == Recovered
  }

  /** The positions in `pending` are those from `from` on where a payment is expected. */
  ghost predicate Remaining(c: Case, pending: seq<nat>, from: nat) {
    && Within(pending, |c.artifacts|) && Ascending(pending)
    && forall k: nat :: k in pending <==> from <= k < |c.artifacts| && Expects(c.artifacts[k])
  }

  /** One position further on, the next one polled being `i`. */
  lemma {:induction false} NextPolled(c: Case, mid: Case, answers: nat -> GatewayAnswer, from: nat, i: nat, n: nat)
    requires from <= i < n <= |c.artifacts| && Expects(c.artifacts[i])
    requires forall k :: from <= k < i ==> !Expects(c.artifacts[k])
    requires mid.artifacts == c.artifacts[i := AfterPoll(c.artifacts[i], answers(i))] && mid.bill == c.bill
    requires mid.balanceDue == ReconcileArtifact(c, i, answers(i)).balanceDue
    ensures BookedBelow(mid, answers, i + 1, n) == BookedBelow(c, answers, from, n)
    decreases n
  {
    if n > i + 1 {
      NextPolled(c, mid, answers, from, i, n - 1);
    } else {
      PollOverwritesTheBalance(c, i, answers(i));
      NothingBooked(c, answers, from, i);
    }
  }

  lemma {:induction false} NothingBooked(c: Case, answers: nat -> GatewayAnswer, from: nat, n: nat)
    requires n <= |c.artifacts| && forall k :: from <= k < n ==> !Expects(c.artifacts[k])
    ensures BookedBelow(c, answers, from, n) == c.balanceDue
  {
    if n > from {
      NothingBooked(c, answers, from, n - 1);
    }
  }

  lemma FirstIsNext(c: Case, pending: seq<nat>, from: nat)
    requires Remaining(c, pending, from) && pending != []
    ensures from <= pending[0] < |c.artifacts| && Expects(c.artifacts[pending[0]])
    ensures forall k :: from <= k < pending[0] ==> !Expects(c.artifacts[k])
  {
    assert pending[0] in pending;
  }

  lemma RestRemains(c: Case, mid: Case, pending: seq<nat>, answer: GatewayAnswer, from: nat)
    requires Remaining(c, pending, from) && pending != []
    requires mid.artifacts == c.artifacts[pending[0] := AfterPoll(c.artifacts[pending[0]], answer)]
    ensures Remaining(mid, pending[1..], pending[0] + 1)
  {
    assert pending == [pending[0]] + pending[1..];
  }

  /** The rest of a poll, told from before its first check. */
  lemma ReachedFromBefore(c: Case, mid: Case, d: Case, answers: nat -> GatewayAnswer, from: nat, i: nat, n: nat)
    requires from <= i < n <= |c.artifacts| && Expects(c.artifacts[i])
    requires forall k :: from <= k < i ==> !Expects(c.artifacts[k])
    requires mid.artifacts == c.artifacts[i := AfterPoll(c.artifacts[i], answers(i))] && mid.bill == c.bill
    requires mid.balanceDue == ReconcileArtifact(c, i, answers(i)).balanceDue
    requires Reached(mid, d, answers, i + 1, n)
    ensures Reached(c, d, answers, from, n)
  {
    NextPolled(c, mid, answers, from, i, n);
  }

  /** What a poll from `from` on makes of a session that was not finished. */
  ghost predicate Polls(c: Case, d: Case, answers: nat -> GatewayAnswer, from: nat) {
    && (!d.terminal ==> Reached(c, d, answers, from, |c.artifacts|))
    && (d.terminal ==> exists m: nat :: EndedAt(c, d, answers, from, m))
  }

  /** The first check, by what it leaves. */
  predicate Checked(c: Case, mid: Case, i: nat, answer: GatewayAnswer)
    requires i < |c.artifacts|
  {
    && mid.artifacts == c.artifacts[i := AfterPoll(c.artifacts[i], answer)] && mid.bill == c.bill
    && mid.balanceDue == ReconcileArtifact(c, i, answer).balanceDue
    && (mid.terminal ==> Notices(c.artifacts[i], answer) && mid.state == Recovered)
  }

  lemma FirstCheckPolls(c: Case, mid: Case, d: Case, answers: nat -> GatewayAnswer, from: nat, i: nat)
    requires from <= i < |c.artifacts| && Expects(c.artifacts[i])
    requires forall k :: from <= k < i ==> !Expects(c.artifacts[k])
    requires Checked(c, mid, i, answers(i))
    requires if mid.terminal then d == mid else Polls(mid, d, answers, i + 1)
    ensures Polls(c, d, answers, from)
  {
    if mid.terminal {
      ReachedFromBefore(c, mid, d, answers, from, i, i + 1);
      assert EndedAt(c, d, answers, from, i);
    } else if !d.terminal {
      ReachedFromBefore(c, mid, d, answers, from, i, |c.artifacts|);
    } else {
      var m: nat :| EndedAt(mid, d, answers, i + 1, m);
      ReachedFromBefore(c, mid, d, answers, from, i, m + 1);
      assert EndedAt(c, d, answers, from, m);
    }
  }

  lemma {:induction false} RestOfThePoll(c: Case, pending: seq<nat>, answers: nat -> GatewayAnswer, from: nat)
    requires Remaining(c, pending, from)
    ensures if c.terminal then PollAll(c, pending, answers) == c else Polls(c, PollAll(c, pending, answers), answers, from)
    decreases |pending|
  {
    if c.terminal {
    } else if pending == [] {
      NothingIsReached(c, pending, answers, from);
    } else {
      var i, rest := pending[0], pending[1..];
      var mid := Check(c, i, answers(i));
      FirstIsNext(c, pending, from);
      CheckOutcome(c, i, answers(i));
      assert Checked(c, mid, i, answers(i));
      RestRemains(c, mid, pending, answers(i), from);
      RestOfThePoll(mid, rest, answers, i + 1);
      FirstCheckPolls(c, mid, PollAll(mid, rest, answers), answers, from, i);
    }
  }

  lemma NothingIsReached(c: Case, pending: seq<nat>, answers: nat -> GatewayAnswer, from: nat)
    requires Remaining(c, pending, from) && pending == []
    ensures Reached(c, c, answers, from, |c.artifacts|)
  {
    forall k: nat | from <= k < |c.artifacts|
      ensures !Expects(c.artifacts[k])
    {
      assert k !in pending;
    }
    NothingBooked(c, answers, from, |c.artifacts|);
  }

  /** A poll whose session is not finished by it has polled every artifact on which a payment
      is expected, and nothing else, and books the newest plan among them. One that finished
      the session did so up to the artifact whose payment recovered the case, and went no
      further. A finished session is not polled. */
  lemma PollOutcome(c: Case, answers: nat -> GatewayAnswer)
    ensures var d := Poll(c, answers);
      && (c.terminal ==> d == c)
      && (!d.terminal ==> Reached(c, d, answers, 0, |c.artifacts|))
      && (!c.terminal && d.terminal ==> exists m: nat :: EndedAt(c, d, answers, 0, m))
  {
    RestOfThePoll(c, Select(c.artifacts, Pollable), answers, 0);
  }

  // ------------------------------------------------------------- the sweeper

  /** What the sweeper does about a plan it polled: nothing when the case is closed, the plan
      cannot be paid or nothing is owed; it waits in quiet hours, stamps the plan and writes one
      row when the policy lists the message and its channel, and else hands the case to a
      person, the session left open. */
  lemma ChaseOutcome(r: Case, i: nat, now: Instant, policy: Policy)
    requires i < |r.artifacts| && Valid(policy)
    ensures Chase(r, i, now, policy)
         == if r.state in {Recovered, Escalated, Cancelled, Failed} || r.artifacts[i].status !in {Created, PartiallyPaid}
               || Balance(r) <= 0
            then r
            else if !Daytime(now) then Delayed(r, Some(TraiQuietHours))
            else if Action.SendWhatsApp in policy.actions && WhatsApp in policy.channels then
              r.(artifacts := r.artifacts[i := r.artifacts[i].(followedUpAt := Some(now))],
                 audit := r.audit + [AuditRow(ExecuteIntervention, InterventionDispatch, None, None, None, Some(i))])
            else ToAPerson(r).(terminal := r.terminal)
  {
    ChannelDecision(r, Tool.SendWhatsApp, Action.SendWhatsApp, WhatsApp, None, None, None, 0, now, policy);
  }

  lemma ProcessedArtifact(c: Case, i: nat, answer: GatewayAnswer, now: Instant, policy: Policy)
    requires i < |c.artifacts| && Valid(policy)
    ensures var a := ProcessDue(c, i, answer, now, policy).artifacts[i];
      && a == AfterPoll(c.artifacts[i], answer).(followedUpAt := a.followedUpAt)
      && a.followedUpAt in {c.artifacts[i].followedUpAt, Some(now)}
  {
    var r := ReconcileArtifact(c, i, answer);
    assert r.artifacts[i] == AfterPoll(c.artifacts[i], answer);
    ChaseArtifacts(r, i, now, policy);
  }

  lemma {:induction false} SweepPolls(c: Case, due: seq<nat>, answers: nat -> GatewayAnswer, now: Instant, policy: Policy,
                                      k: nat)
    requires Within(due, |c.artifacts|) && Ascending(due) && Valid(policy) && k < |c.artifacts|
    ensures var a := SweepAll(c, due, answers, now, policy).artifacts[k];
      if k in due then
        && a == AfterPoll(c.artifacts[k], answers(k)).(followedUpAt := a.followedUpAt)
        && a.followedUpAt in {c.artifacts[k].followedUpAt, Some(now)}
      else a == c.artifacts[k]
    decreases |due|
  {
    if due != [] {
      var i, rest := due[0], due[1..];
      assert i !in rest;
      ProcessedArtifact(c, i, answers(i), now, policy);
      ProcessArtifacts(c, i, answers(i), now, policy);
      SweepPolls(ProcessDue(c, i, answers(i), now, policy), rest, answers, now, policy, k);
    }
  }

  /** A tick polls exactly the plans that were due when it began, whatever is paid meanwhile;
      beyond that it only stamps them, and it touches no other artifact. */
  lemma TickPolls(c: Case, answers: nat -> GatewayAnswer, now: Instant, policy: Policy, k: nat)
    requires Valid(policy) && k < |c.artifacts|
    ensures var a, b := c.artifacts[k], Sweep(c, answers, now, policy).artifacts[k];
      if && c.state in {Pending, Diagnosing, Waiting, Intervening} && a.status in {Created, PartiallyPaid}
         && a.acceptPartial && a.followedUpAt == None && a.deadline != None && a.deadline.value <= now
      then b == AfterPoll(a, answers(k)).(followedUpAt := b.followedUpAt) && b.followedUpAt in {None, Some(now)}
      else b == a
  {
    DueExactlyWhen(c, now, k);
    SweepPolls(c, DueNow(c, now), answers, now, policy, k);
  }

  // ------------------------------------------------------ the forced payment

  /** A forced payment pays the artifact what it asks for, unless it is paid or expired: a
      plan books what the bill leaves, and recovers the case when that is nothing; any other
      artifact recovers a case that is not with a person or cancelled. It writes one row, and
      finishes the session of a case it leaves recovered. */
  lemma ForcedPaymentOutcome(c: Case, i: nat)
    requires i < |c.artifacts|
    ensures var a, d := c.artifacts[i], ForcePaid(c, i);
      var state := if a.acceptPartial then (if a.amount >= c.bill then Recovered else c.state)
                   else if c.state in {Escalated, Cancelled} then c.state else Recovered;
      d == if a.status in {Paid, Expired} then c
           else c.(artifacts := c.artifacts[i := a.(status := Paid, amountPaid := a.amount)],
                   balanceDue := if a.acceptPartial then Some(MaxInt(c.bill - a.amount, 0)) else c.balanceDue,
                   state := state, terminal := c.terminal || state == Recovered,
                   audit := c.audit + [AuditRow(NodeName.Reconcile, StateTransition, None, None, None, None)])
  {
  }
}
