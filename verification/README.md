# Recova, modelled and proved

Recova works failed payments through a bounded recovery engine. Models, providers and
telephony sit at its edges; the centre is deterministic: money arithmetic, a lifecycle
state machine, one gate chain kept in three places, and a few real algorithms. This
project models that centre in Dafny and proves what it keeps.

`dafny verify dfyconfig.toml` checks the whole project.

## What is modelled

**The engine.** A case is a transaction with its payment artifacts, its append-only audit
trail, its tickets and its session flag. `Ledger`, `Gates`, `Workflow` and `Sessions`
say what each operation does to it, as functions on values, and `Outcomes`, `Minting` and
`Polling` what that comes to, told from the fields of the case alone; the class
`Recovery.RecoveryCase` updates the record in place, as the program does, and every
method is proved to be that function of the old record. `Safety` and `Runs` prove what
any sequence of entry points keeps; `Settled`, `Balances` and `Chasing` which artifacts a
step can touch, what is booked and whom the sweeper writes to; `Histories` runs in which
that goes wrong. Gateway answers, clocks, models' payloads, policies
and settlement events are arbitrary inputs. Money is in paise, and rupees and
percentages are exact rationals. A moment is a number of seconds on the Indian wall clock.

**Policy arithmetic.** `Policies` and `Proposals` model the sandbox and the proposer
upstream of it, with rounding half to even, and prove that the one accepts what the
other asks for, from the least bill for which that is true.

**Derived views.** `Bounds` models the decision trace, the server's bounds and the
browser's bounds as loops over the same trail; `Gauges` compares what they show with what
the gates count; `Metrics` models the dashboard's figures.

**Algorithms.** `Apportionment` and `Interleaving` (largest remainder, then a
round-robin drain), `EventStream` (server-sent events, the subset of section 9.2 of the
WHATWG HTML Living Standard the client reads), `RateLimiter` (requests interleaving
statement by statement), `Replies`, `Calendar` and `Promises` (thresholds over a judge's
probabilities, and the date a reply commits to), `NumberWords` and `Speech` (amounts in
English and Hindi words, and a listener who gets them back).

## What the proofs found

- A request of zero passes the gate when the policy has no minimum, and is then minted
  for the whole bill, past the ceiling (`Gates.ZeroRequestEscapesTheCeiling`): an amount
  of zero reads as no amount in Backend/application/operations/live_session.py:452. A
  negative amount a client names, which nothing clamps, can be approved under such a policy
  too, and is minted as it is (`Gates.RequestBelowAPaisaIsApprovedExactlyWhen`).
- A case can be recovered and owe again (`Ledger.RecoveredCaseMayRegainABalance`): one
  balance is overwritten for each plan that is polled and no other payment is counted.
  When exactly: `Ledger.PollLeavesRecoveredButOwingExactlyWhen`,
  `Ledger.PollUndoesARecoveryExactlyWhen`,
  `Ledger.ForcedPaymentLeavesRecoveredButOwingExactlyWhen` and
  `Balances.GraphLeavesRecoveredButOwingExactlyWhen`; no other step brings a case there.
- The booked balance leaves out what was paid on other artifacts
  (`Balances.PolledBalanceIsTrueExactlyWhen`).
- Backend/application/operations/deadline_sweeper.py:8-9 and README.md:355 promise that a
  customer who has paid is not chased. One who paid the whole bill is, exactly when the
  plan itself will still be owed (`Chasing.PaidBillIsChasedExactlyWhen`): by a link beside a
  part-paid plan, by the instalments of two plans, or before a plan that is never polled
  (the three runs of `Histories`). The model follows the code.
- README.md:353 says the sweeper picks up artifacts with a balance outstanding. What is
  reported of the plan itself decides whether it stays in the sweep
  (`Settled.PlanStaysInTheSweepExactlyWhen`): one whose first instalment is paid drops out,
  and stays out until an on-demand check reports less of it
  (`Settled.PaidInstalmentIsNotChased`). The model follows the code.
- The proposer's amounts are always accepted from 9999 paise on, and at 9998 paise one is
  refused (`Proposals.UnaskedRequestRefusedAt9998`); for every other bill
  `Proposals.UnaskedRequestIsApprovedExactlyWhen` says when.
- The retry gauge counts deferrals in quiet hours as retries, so it can show the cap as
  reached while the gate grants the retry (`Gauges.DeferralsExhaustTheGaugeOnly`).
- "The n-th at or after today" can be in the past for a number that is no day of a month
  (`Calendar.InThePastExactlyWhen`). The model follows the code.
- More certainty can relax an answer in one place
  (`Replies.SeverityIsMonotoneExceptOneCrossing`).
- When cancelling a superseded link raises, the handler at
  Backend/application/operations/payment_artifacts.py:150 names a logger the module does
  not define, so the mint ends there. The model ends the request with nothing written.

## Model

| member | source | states |
|---|---|---|
| `Domain.NextQuietHoursEndIsTheFirstOpenMoment` | Backend/application/helpers.py:54-67 | A deferral in quiet hours resumes at a moment within a day that is open, and every moment before it is still quiet. |
| `Domain.ToolForPlaybook` | Backend/application/operations/agent_tools.py:172-177 | The tool a playbook maps to has the playbook's own action and channel, and is never a handoff, a stop or a partial plan. |
| `Policies.MinimumPctExactly` | Backend/application/operations/policy_guard.py:92-95 | The rounded percentage test refuses exactly when 20000·amount < (200·pct − 1)·base: the minimum may be missed by half of a hundredth of a percent. |
| `Policies.RoundHalfEvenNear` | Backend/application/operations/policy_guard.py:92-95 | Rounding lands within one half, and a tie only on an even number. |
| `Proposals.UnaskedRequestIsApprovedExactlyWhen` | Backend/application/operations/agent_tools.py:405-419 | What the proposer asks for when the customer named no amount, clamped and rounded to paise, is accepted by the sandbox exactly when the ceiling is not zero and an instalment at the policy minimum falls short of the exact minimum of its base by at most a two-hundredth of a percent of it: for every bill, ceiling and minimum. |
| `Proposals.UnaskedRequestIsApproved` | Backend/application/operations/agent_tools.py:405-419 | From a bill of 9999 paise on it is always accepted, under any ceiling but zero. |
| `Proposals.UnaskedPlanIsApprovedExactlyWhen` | Backend/application/operations/agent_tools.py:405-411 | Without a ceiling a plan is accepted exactly when its minimum rounds up to a paisa or what rounding drops is at most a two-hundredth of a percent of the bill. |
| `Proposals.UnaskedRequestRefusedAt9998` | Backend/application/operations/agent_tools.py:405-419 | The bound is tight: at 9998 paise and 75 percent the proposer asks for 7498 and the sandbox refuses it. |
| `Proposals.UnaskedAmounts` | Backend/application/operations/agent_tools.py:880-884 | For every bill and ceiling of at least one paisa the computed request lies between one paisa and the bill, under the ceiling, and misses the exact percentage only as an instalment too short for it. |
| `Proposals.InstalmentMeetsMinimum` | Backend/application/operations/agent_tools.py:405-411 | Rounding the policy minimum of a bill of at least 9999 paise to a whole paisa meets the minimum of any base from one paisa up to that bill. |
| `Proposals.RequestWithinCeiling` | Backend/application/operations/agent_tools.py:413-419 | Whatever the customer offers, the request is at least one paisa and at most the bill and the ceiling. |
| `Proposals.AskedWithAnOffer` | Backend/application/operations/agent_tools.py:405-419 | What is asked for when the customer names an amount, for every tool, bill, offer and policy: that amount, between one paisa and the bill, or the ceiling where partial payments let a payment tool cut it; an offer of nothing is weighed as the bill. |
| `Ledger.FoldBooksTheBill` | Backend/application/operations/payment_artifacts.py:204-229 | After folding a partial artifact, balance + min(paid, bill) = bill; a case becomes recovered only when the paid amount covers the bill, and does when it does; a full artifact never touches the balance and closes the case unless a person or a stop already did. |
| `Ledger.ReconcileKeepsTheBooks` | Backend/application/operations/payment_artifacts.py:232-283 | For every gateway answer a poll keeps: paid artifacts were paid what they asked, full artifacts ask for the bill, only the newest awaits a first payment; and a recovery it causes is covered by the polled artifact. |
| `Polling.ArtifactAfterAPoll` | Backend/application/operations/payment_artifacts.py:244-276 | Status and payment after a poll for every answer: paid at the provider's word, by the amount when one is reported, expired without one, else as it was. |
| `Polling.StateAfterAPoll` | Backend/application/operations/payment_artifacts.py:204-229 | The state after a poll for every case, artifact and answer. |
| `Ledger.SimulatedPaymentKeepsTheBooks` | Backend/application/operations/payment_artifacts.py:286-304 | The demo's forced payment keeps the same bookkeeping, and closes a case only when the artifact covers the bill. |
| `Polling.ForcedPaymentOutcome` | Backend/application/operations/live_session.py:887-900 | The whole case after a forced payment: the artifact paid its own amount, the balance, the state, one row, and the session finished when the case is recovered. |
| `Ledger.MintKeepsTheBooks` | Backend/application/operations/payment_artifacts.py:134-201 | Minting closes the superseded artifacts, keeps the bookkeeping, and books bill − amount as the balance of a plan. |
| `Minting.WhatIsIssued` | Backend/application/operations/live_session.py:434-490 | A cleared payment tool adds one artifact of the form its tool and class give, for the amount asked or the bill, supersedes exactly what awaited a first payment, and books bill less amount for a plan. |
| `Minting.IssuedPlanIsDueExactlyFrom` | Backend/application/operations/live_session.py:469-478 | What was issued is due exactly when it is a plan and the days of the decision, the default days where it has none, or the demo's seconds have passed since. |
| `Minting.EarlierPlansDueAfterIssue` | Backend/application/operations/deadline_sweeper.py:81-93 | After an issue exactly those earlier plans are due that were partly paid, overdue and not written about. |
| `Minting.DueExactlyWhen` | Backend/application/operations/deadline_sweeper.py:81-93 | A plan is due exactly in a case that is not closed, when it can be paid, its deadline has come and nothing was written about it. |
| `Ledger.OnlyMintingCloses` | Backend/application/operations/payment_artifacts.py:232-283 | A poll never closes an artifact, never makes one await its first payment again and touches no other one; it leaves a closed one closed exactly when there is nothing to poll or nothing is reported of it. |
| `Ledger.RecoveredCaseMayRegainABalance` | Backend/application/operations/payment_artifacts.py:251-265 | A recovered case can get a balance again: a plan's link paid in excess and then reported paid falls back to the instalment. |
| `Ledger.PollOverwritesTheBalance` | Backend/application/operations/payment_artifacts.py:204-265 | A poll of a plan overwrites the balance with the bill less what is reported of that plan, whoever booked it last and whatever other artifacts were paid; no other poll touches it. |
| `Ledger.BalanceShrinksExactlyWhen` | Backend/application/operations/payment_artifacts.py:204-265 | A poll lets the balance only shrink exactly when no plan is polled or the bill less what is reported of it is no more than the balance; where the plan itself booked the balance, exactly when no less is reported than was paid, up to the bill. |
| `Ledger.PollLeavesRecoveredButOwingExactlyWhen` | Backend/application/operations/payment_artifacts.py:204-265 | Exactly when a poll leaves a case recovered with a positive balance, for every case, artifact and answer. |
| `Ledger.PollUndoesARecoveryExactlyWhen` | Backend/application/operations/payment_artifacts.py:218-222 | A poll takes a case out of recovery exactly when it reports a plan partly paid, below the bill; the case then waits, with a balance. |
| `Ledger.ForcedPaymentLeavesRecoveredButOwingExactlyWhen` | Backend/application/operations/payment_artifacts.py:286-304 | Exactly when the forced payment leaves a case recovered with a positive balance; it never takes one out of recovery. |
| `Balances.GraphLeavesRecoveredButOwingExactlyWhen` | Backend/application/workflow/workflow_nodes.py:273-300 | A graph run leaves a case recovered with a positive balance exactly when it dispatched, a settlement event came and the case owed something before. |
| `Balances.OtherStepsLeaveNoneRecoveredButOwing` | Backend/application/operations/live_session.py:492-636 | Polls, forced payments and the graph aside, no entry point brings a case to be recovered and owing. |
| `Balances.PolledBalanceIsTrueExactlyWhen` | Backend/application/operations/payment_artifacts.py:204-265 | After a plan was polled the booked balance is the bill less everything paid exactly when nothing was paid on other artifacts, or the plan alone and all together reach the bill. |
| `Balances.ForcedBalanceIsTrueExactlyWhen` | Backend/application/operations/payment_artifacts.py:286-304 | The same after a forced payment of a plan. |
| `Balances.UnbookedBalanceIsTrueExactlyWhen` | Backend/application/operations/payment_artifacts.py:204-283 | A poll of any other artifact leaves the balance, so it is true exactly when what was booked is what is left. |
| `Recovery.RecoveryCase.Mint` | Backend/application/operations/payment_artifacts.py:134-201 | The loop over earlier artifacts and the insert change the record to the mint of the old one, or to nothing at all when cancelling a superseded link crashes. |
| `Recovery.RecoveryCase.ApplyTransactionState` | Backend/application/operations/payment_artifacts.py:204-229 | Balance and state become those of the fold of the old record; nothing else changes. |
| `Recovery.RecoveryCase.Reconcile` | Backend/application/operations/payment_artifacts.py:232-283 | Polling one artifact in place is the specified poll and fold of the old record. |
| `Recovery.RecoveryCase.ForcePayment` | Backend/application/operations/live_session.py:887-900 | The forced payment and its announcement, on the old record; what every run keeps is kept. |
| `Recovery.RecoveryCase.CountRows` | Backend/application/operations/voice_attempts.py:13-21 | Counting audit rows in a loop gives the number that satisfy the filter. |
| `Recovery.RecoveryCase.GateTool` | Backend/application/operations/agent_tools.py:440-685 | The verdict of the gate chain on the old record, and the state, audit row and ticket that go with it, and no other change: a handoff ends escalated with a ticket, a stop cancelled without one. |
| `Recovery.RecoveryCase.DecideTool` | Backend/application/operations/agent_tools.py:845-915 | Redirect, clamp and gate on the old record: one verdict and its effect. |
| `Recovery.RecoveryCase.ApplyAgentDecision` | Backend/application/operations/live_session.py:492-636 | Carrying out a verdict mints, dispatches, finishes or leaves the old record as specified. |
| `Recovery.RecoveryCase.Open` | Backend/application/operations/live_session.py:381-427 | The opening beat of a session on the old record; what every run keeps is kept. |
| `Recovery.RecoveryCase.Start` | Backend/application/operations/live_session.py:429-432 | A session is opened unless it was, or was closed; what every run keeps is kept. |
| `Recovery.RecoveryCase.Receive` | Backend/application/operations/live_session.py:764-803 | One customer reply on the old record: it opens a session that was not started; a closed one takes none; one that ended ignores it; else it is stopped when the reading says so, or decided once; what every run keeps is kept. |
| `Recovery.RecoveryCase.RunAgentTool` | Backend/application/operations/live_session.py:821-885 | A tool the client names runs the same gates; there is no test of the ended session; what every run keeps is kept. |
| `Recovery.RecoveryCase.PressCallButton` | Backend/application/endpoints/transaction_api.py:299-407 | The call button writes its one audit row and never moves the case; what every run keeps is kept. |
| `Recovery.RecoveryCase.CheckLatestPayment` | Backend/application/operations/live_session.py:911-934 | The on-demand check polls the newest artifact only; what every run keeps is kept. |
| `Recovery.RecoveryCase.ReconcilePending` | Backend/application/operations/live_session.py:967-986 | The poller's loop, which stops once the session is finished, is the specified fold; unless it finished the session it has polled every artifact on which a payment is expected and no other; what every run keeps is kept. |
| `Recovery.RecoveryCase.ProcessArtifact` | Backend/application/operations/deadline_sweeper.py:96-177 | One overdue artifact: poll, test, gate, write and stamp, as specified on the old record. |
| `Recovery.RecoveryCase.Tick` | Backend/application/operations/deadline_sweeper.py:77-94 | A tick of the sweeper is the specified fold over the artifacts due at its start; what every run keeps is kept. |
| `Recovery.RecoveryCase.IngestStep` | Backend/application/workflow/workflow_nodes.py:64-111 | Ingest resets any state to diagnosing, then obeys the reading of the message. |
| `Recovery.RecoveryCase.ExecuteStep` | Backend/application/workflow/workflow_nodes.py:178-271 | The execute node on the old record: its gates in order and what each writes; a dispatcher that raises leaves the committed state and no row. |
| `Recovery.RecoveryCase.ReconcileStep` | Backend/application/workflow/workflow_nodes.py:273-300 | The reconcile node recovers the case exactly on a settlement event. |
| `Recovery.RecoveryCase.InvokeGraph` | Backend/application/workflow/recovery_graph.py:44-66 | Walking the edges node by node gives the specified run: the same record, dispatches and nodes; without a seeded call count, what every run keeps is kept. |
| `Gates.ExecuteAgreesWithGate` | Backend/application/workflow/workflow_nodes.py:178-254 | For a full-bill proposal the workflow and the tool gate give one verdict and one rule, for every clock, count and policy, exactly when the case's retry limit and the constant three do not disagree on a retry. |
| `Gates.CallButtonIsStricter` | Backend/application/endpoints/transaction_api.py:317-394 | The call button clears exactly the calls the tool gate clears, minus those of a case whose retries are spent. |
| `Gates.ApprovalMeansEveryGatePassed` | Backend/application/operations/agent_tools.py:518-653 | A tool with a channel is approved exactly when it is outside quiet hours, within the call cap when it is a call, and accepted by the sandbox, for which see Outcomes.SandboxApprovesExactlyWhen; approval alone changes nothing. |
| `Gates.RedirectedCallIsRefusedOnlyByClockOrDiscount` | Backend/application/operations/agent_tools.py:845-866 | A nudge past its cap is redirected only to a call that nothing but quiet hours or an excessive discount then refuses. |
| `Gates.GateWritesNoDispatch` | Backend/application/operations/agent_tools.py:180-198 | What a gate writes is never a dispatch row and touches neither money nor artifacts. |
| `Gates.MintedAmountIsTheGatedOne` | Backend/application/operations/live_session.py:452-456 | For every allowed payment tool and any discount, the minted amount is the gated one exactly when the request is not zero or the bill is, and stays under the ceiling exactly when the request is not zero or the bill does. |
| `Gates.MintedIsAtLeastAPaisaExactlyWhen` | Backend/application/operations/live_session.py:452-456 | For every allowed payment tool and a bill of at least one paisa, what is minted is at least one paisa exactly when the request is not negative. |
| `Gates.RequestBelowAPaisaIsApprovedExactlyWhen` | Backend/application/operations/policy_guard.py:83-115 | A request of zero or less is approved exactly when all else is in order, the policy has no minimum, and it is at most a twenty-thousandth of the base below zero. |
| `Gates.ZeroRequestEscapesTheCeiling` | Backend/application/operations/live_session.py:452-456 | A request of zero under a policy without a minimum mints the whole bill above the ceiling. |
| `Outcomes.SandboxApprovesExactlyWhen` | Backend/application/operations/policy_guard.py:75-117 | The sandbox approves what a gate asks for exactly when action and channel are listed, the discount is within its cap, an action that moves money is within the ceiling, and a payment in part is allowed and meets the minimum, as an integer inequality over the bill or a lower ceiling. |
| `Outcomes.ChannelIsClearedExactlyWhen` | Backend/application/operations/agent_tools.py:518-653 | A tool reaches its channel exactly between 9:00 and 20:00, below two calls if it is a call, and within that policy; the verdict then carries its own action, channel, amount and days. |
| `Outcomes.RetryIsGrantedExactlyWhen` | Backend/application/operations/agent_tools.py:556-583 | A retry is granted at any hour, exactly below the case's own limit and within the policy. |
| `Outcomes.PlaybookVerdictIs` | Backend/application/workflow/workflow_nodes.py:178-254 | The workflow's verdict on each playbook's action and channel: which rule halts it, when the policy blocks it, and when it is cleared. |
| `Outcomes.HandoffAndStopOutcomes` | Backend/application/operations/agent_tools.py:467-518 | Carried out, a handoff ends escalated and finished with one ticket and an escalation row, and a stop cancelled and finished without a ticket, at any hour and under any policy. |
| `Outcomes.RetryOutcome` | Backend/application/operations/agent_tools.py:556-653 | Carried out, a retry ends cancelled and finished at the limit, waiting when granted, and with a person when the policy forbids it. |
| `Outcomes.ChannelRefusalOutcome` | Backend/application/operations/agent_tools.py:518-653 | A channel tool that is turned away leaves the case waiting and open in quiet hours, cancelled and finished after two calls, and else escalated and finished with a ticket. |
| `Outcomes.ChannelClearanceOutcome` | Backend/application/operations/live_session.py:492-536 | One that is cleared leaves the case intervening with one dispatch of its action on its channel, after a mint when it is a payment tool; a mint that crashes changes nothing. |
| `Outcomes.ATurnIsAToolCall` | Backend/application/operations/agent_tools.py:845-915 | A turn without a discount does exactly what a client does who names the tool it is routed to, a nudge becoming a call from the third on, with the amount between one paisa and the bill and the days between 1 and 90. |
| `Outcomes.WaiverOutcome` | Backend/application/operations/agent_tools.py:867-905 | A turn that offers a waiver is sent on WhatsApp exactly by day and when the policy permits its discount; else it waits, or goes to a person. |
| `Outcomes.WhatCountsAsACallOrANudge` | Backend/application/operations/voice_attempts.py:9-21 | A row counts as a call or a nudge exactly when it is a dispatch on the voice channel or on WhatsApp. |
| `Outcomes.ReminderAndFinishedSession` | Backend/application/operations/live_session.py:764-803 | A finished session takes no reply, and a booked reminder adds one row to a turn. |
| `Outcomes.ANewSessionAnswers` | Backend/application/operations/live_session.py:1108-1168 | A new session on a case answers again, however the last one ended. |
| `Outcomes.StoppedReplyOutcome` | Backend/application/operations/live_session.py:651-683 | A reply read as a stop finishes the session: cancelled without a ticket, or escalated with one, with one row naming the rule. |
| `Outcomes.AnOpeningIsAToolCall` | Backend/application/operations/live_session.py:381-427 | The opening beat writes its two rows and then does what a client does who names the tool of the failure class: a link for 1, a retry for 3, a nudge for 2 and 4. |
| `Outcomes.CallButtonOutcome` | Backend/application/endpoints/transaction_api.py:299-407 | The call button adds one row for each verdict, one voice dispatch exactly when the call is cleared, a ticket when the policy blocks it, and never moves the case. |
| `Workflow.EveryRun` | Backend/application/workflow/workflow_nodes.py:63-312 | Every run visits at most five nodes, none twice; dispatches at most once, exactly when the message allows it, every gate clears it and the dispatcher does not raise, with one audit row for it; ends in the tabled state; and is recovered exactly when it dispatched and a settlement event came. |
| `Workflow.UnstoppedRun` | Backend/application/workflow/recovery_graph.py:44-66 | A run the message does not stop visits ingest, diagnose, wait for a salary-cycle playbook only, execute, and reconcile only after a dispatch. |
| `Workflow.StoppedRun` | Backend/application/workflow/workflow_nodes.py:67-111 | A run the message stops ends at its first node, sends nothing and adds no dispatch row. |
| `Workflow.RunFromKeepsTheLedger` | Backend/application/workflow/workflow_nodes.py:63-301 | No run touches artifacts, balances, limits or the session. |
| `Outcomes.GraphOutcome` | Backend/application/workflow/workflow_nodes.py:63-301 | The whole case after any run: its rows, its state, and a ticket exactly when the message or the policy hands it to a person. |
| `Outcomes.DispatchesExactlyWhenLetThrough` | Backend/application/workflow/workflow_nodes.py:178-271 | A run dispatches exactly when the message lets it on, it is day where a channel is needed, fewer than three retries or two calls were made, the policy permits the bill and the discount, and the channel takes it. |
| `Runs.EveryRunIsSafe` | Backend/application/operations/live_session.py:492-636 | From a safe case, any sequence of sessions, replies, named tools, calls, graph runs, polls, forced payments and ticks, with arbitrary gateway answers and clocks, keeps the books balanced, one open artifact, every follow-up due and sent once, and voice dispatches at most max(earlier calls, 2). |
| `Runs.FreshCaseIsSafe` | Backend/application/operations/voice_attempts.py:9-21 | A case without artifacts and with any earlier dispatches is safe, its earlier voice rows being the calls that count. |
| `Runs.RecoveryIsPaidFor` | Backend/application/operations/payment_artifacts.py:204-229 | After any run, an event outside the graph recovers the case only with an artifact paid at least the whole bill, and a graph run only when a dispatch was answered by a settlement event. |
| `Runs.AtMostOneOpenAndOneFollowUp` | Backend/application/operations/payment_artifacts.py:134-189 | At every moment at most one artifact awaits its first payment, the newest is never closed, and no artifact has two follow-ups. |
| `Runs.StepKeepsBooks` | Backend/application/operations/payment_artifacts.py:134-304 | Each single entry point keeps the bookkeeping invariants. |
| `Runs.StepRespectsVoiceCap` | Backend/application/operations/agent_tools.py:584-611 | Each single entry point leaves at most max(voice rows before, 2) voice dispatch rows. |
| `Runs.StepKeepsChased` | Backend/application/operations/deadline_sweeper.py:148-177 | Each single entry point keeps: an artifact has one follow-up when stamped and none otherwise, and every stamp was due and by day. |
| `Settled.OnlyAForcedPaymentReopens` | Backend/application/operations/payment_artifacts.py:286-300 | No entry point but the forced payment of that very artifact changes a closed artifact. |
| `Settled.OtherStepsLeaveIdle` | Backend/application/operations/live_session.py:967-986 | No entry point but the on-demand check and the forced payment changes a closed, expired or fully paid artifact. |
| `Settled.PaidStaysPaidExactlyUnless` | Backend/application/operations/live_session.py:911-934 | For every entry point, a paid artifact stays paid exactly unless an on-demand check finds it the newest and the provider reports less than all of it, or that it expired. |
| `Settled.PaidForGoodExactlyWhen` | Backend/application/operations/live_session.py:911-934 | Over every run, a paid artifact stays paid throughout exactly when no such check comes. |
| `Settled.QuietTickKeepsPlansDue` | Backend/application/operations/deadline_sweeper.py:77-147 | A whole tick in quiet hours writes no dispatch of any kind and no follow-up; at any later tick exactly those plans are due that are overdue as its polls left them, unless the last of its polls that covered the bill or left a plan part paid covered it. |
| `Settled.QuietDeferralKeepsTheArtifactDue` | Backend/application/operations/deadline_sweeper.py:118-146 | One plan deferred by quiet hours is due again at a later tick exactly when polling left it payable and the case open, and the case waits if something is owed. |
| `Settled.PlanStaysInTheSweepExactlyWhen` | Backend/application/operations/deadline_sweeper.py:77-94 | After a poll an overdue plan is still in the sweep exactly when it cannot be polled, or less than the bill is reported, the provider does not call it paid, any reported amount is below the instalment, and it calls it expired only beside an amount. |
| `Settled.PaidInstalmentIsNotChased` | Backend/application/operations/deadline_sweeper.py:81-93 | A plan whose first instalment is reported paid in full, by status or by amount, below the bill keeps a positive balance and is not due after any run in which no on-demand check takes the payment back, against the description of the follow-up loop. |
| `Settled.ACheckCanPutItBack` | Backend/application/operations/live_session.py:911-934 | Such a check does put a paid instalment back into the sweep. |
| `Safety.FollowsUpExactlyWhen` | Backend/application/operations/deadline_sweeper.py:96-147 | The sweeper writes to the customer exactly when, after polling, the case is open, the artifact payable, a balance left, it is outside quiet hours and the policy permits the message. |
| `Chasing.FollowUpIsDecidedBeforeThePoll` | Backend/application/operations/deadline_sweeper.py:96-147 | The same, told from the case before the poll and the answer: the artifact itself, the state and the clock decide, never what was paid on another artifact. |
| `Chasing.PaidBillIsChasedExactlyWhen` | Backend/application/operations/deadline_sweeper.py:101-113 | A customer who has paid the whole bill, on however many artifacts, is written to about an artifact, against the promise that whoever paid is never chased, exactly when it will be owed after the poll, by day and within the policy, and what was paid elsewhere and what the answer leaves paid on it make up the bill. |
| `Chasing.CoveredCaseIsChasedExactlyWhen` | Backend/application/operations/deadline_sweeper.py:101-113 | Where one artifact alone reached the bill, that is exactly when the plan will be owed and it was another artifact or, for a simulated plan, which is never polled, any. |
| `Chasing.DuePlanCanBeChasedExactlyWhen` | Backend/application/operations/deadline_sweeper.py:77-147 | Under a gateway that never takes a payment back, some answer leads to a follow-up on an overdue plan exactly by day, within the policy, and while the plan itself was paid less than the bill or, for a simulated plan, while any balance is booked. |
| `Chasing.TickWritesExactlyAbout` | Backend/application/operations/deadline_sweeper.py:77-177 | A whole tick, at any hour and under any policy, writes a follow-up about a plan exactly when it is by day and permitted, the case was open, the plan was due, and it is still owed in the state and with the balance that the plans polled before it leave. |
| `Histories.PayerByLinkIsChased` | Backend/application/operations/deadline_sweeper.py:77-147 | From a case without artifacts of a bill of 100, one run pays 30 of a plan and then the bill by a link: the case is recovered with a balance of 70, and a nudge later the sweeper writes about the plan. |
| `Histories.PayerByInstalmentsIsChased` | Backend/application/operations/deadline_sweeper.py:77-147 | One run pays 60 by one plan and 40 of another: 100 of 100 is paid, no artifact covers it, 60 is booked as owing, and the sweeper writes. |
| `Histories.PayerIsChasedAboutASimulatedPlan` | Backend/application/operations/payment_artifacts.py:111-129 | One run pays the bill by a link and is offered a plan while no provider answers: the plan is never polled, and the sweeper writes about it. |
| `Safety.EnactKeepsBooks` | Backend/application/operations/live_session.py:434-490 | Carrying out any decision of the gates keeps the books. |
| `Safety.PollKeepsBooks` | Backend/application/operations/live_session.py:967-986 | A whole poll keeps the books, touches only what it polls, and recovers the case only on a covered bill. |
| `Polling.CheckOutcome` | Backend/application/operations/live_session.py:977-984 | A check polls one artifact, writes one row exactly when it notices a payment, and finishes the session exactly when that leaves the case recovered. |
| `Polling.StatusCheckOutcome` | Backend/application/operations/live_session.py:911-934 | The on-demand check polls the newest artifact and no other. |
| `Polling.PollOutcome` | Backend/application/operations/live_session.py:967-984 | A poll that does not finish the session has polled every artifact the provider knows that is created or partly paid, and no other, and books the newest plan among them; one that does went exactly up to the artifact whose payment recovered the case; a finished session is not polled. |
| `Polling.ChaseOutcome` | Backend/application/operations/deadline_sweeper.py:101-177 | What the sweeper does about a plan after the poll: nothing, a deferral, one stamp and one row, or a ticket and an escalated case whose session stays open. |
| `Polling.TickPolls` | Backend/application/operations/deadline_sweeper.py:77-177 | A tick polls exactly the plans due when it began, stamps at most those, and touches no other artifact. |
| `Safety.SweepKeepsBooks` | Backend/application/operations/deadline_sweeper.py:77-177 | A whole tick keeps the books, touches only what was due, and recovers the case only on a covered bill. |
| `Safety.SweepKeepsChased` | Backend/application/operations/deadline_sweeper.py:77-177 | A whole tick sends at most one follow-up for each artifact, after its deadline and by day. |
| `Safety.DecisionRespectsVoiceCap` | Backend/application/operations/agent_tools.py:584-611 | Acting on the gate's verdict for any tool leaves at most max(calls before, 2) voice rows. |
| `Safety.EnactCounts` | Backend/application/operations/live_session.py:506-536 | A decision adds one dispatch row when it reaches a channel and none otherwise. |
| `Safety.CallButtonRespectsVoiceCap` | Backend/application/endpoints/transaction_api.py:354-407 | The call button never takes the voice rows past max(before, 2). |
| `Bounds.BuildTrace` | Backend/application/simulation/trace.py:180-221 | Step k of the trace carries exactly the counts over the first k rows, their channels, and the row's own node and rule. |
| `Bounds.ChannelsInOrderOfFirstUse` | Backend/application/simulation/trace.py:192-194 | The channels of the budgets are exactly those used, each once, in the order of first use. |
| `Bounds.FirstUse` | Backend/application/simulation/trace.py:192-194 | The position returned is a use of the channel when inside the trail, and no earlier row is one. |
| `Bounds.BudgetsNeverShrink` | Backend/application/simulation/trace.py:180-221 | Along a trace no budget is given back and the list of channels only grows at its end. |
| `Bounds.ServerBounds` | Backend/application/operations/live_session.py:231-296 | The server's loop yields the gauge as counts over the trail, with the rule it was told or else the first of the trail. |
| `Bounds.ComputeBounds` | Frontend/src/lib/bounds.ts:80-161 | The browser's loop yields the server's gauge in every field but the fired rule, whatever rule the server was told, its next action being the same instant. |
| `Bounds.BrowserNextQuietHoursEnd` | Frontend/src/lib/bounds.ts:71-78 | Shifting, setting the hour and shifting back gives the next 09:00 Indian time the server computes. |
| `Bounds.QuietHoursAgree` | Frontend/src/lib/bounds.ts:61-69 | The browser's hour test on a millisecond clock is the server's quiet-hours test. |
| `Bounds.BoundsExceedTheTrace` | Backend/application/operations/live_session.py:250-263 | Retries of the bounds exceed those of the trace by exactly the scheduled retries that carry a rule, and calls by exactly the call actions on another channel. |
| `Bounds.ChannelsAreSharedOut` | Backend/application/operations/live_session.py:289-290 | Channels used and channels remaining together are the allowed channels. |
| `Bounds.ChannelsShown` | Backend/application/operations/live_session.py:288-290 | An allowed channel is shown as used exactly when a dispatch of the trail used it, and as remaining exactly when none did. |
| `Bounds.WhatARowAdds` | Backend/application/operations/live_session.py:250-263 | What one more row adds to the counts of the bounds and to those of the trace. |
| `Bounds.BudgetsShown` | Backend/application/operations/live_session.py:265-296 | The budgets out of three retries and two calls, which rule is armed, and when contact resumes, for every trail, state and hour. |
| `Bounds.FirstRuleIsTheEarliest` | Backend/application/operations/live_session.py:263 | The fired rule is that of the earliest row that names one. |
| `Gauges.VoiceGaugeIsTheGate` | Backend/application/operations/voice_attempts.py:9-21 | In every run the calls the gauge shows, the calls the trace shows and the calls the voice gate counts are equal. |
| `Gauges.DeferralsFillTheRetryGauge` | Backend/application/operations/live_session.py:258-262 | Over any run of deferrals by quiet hours, of replies, openings, client-named tools, calls, graph runs and sweeps, each adds one to the gauge's retries, none to the trace's, and leaves the count the retry gate reads. |
| `Gauges.OneDeferralAStep` | Backend/application/operations/live_session.py:258-262 | Without a sweep among them the deferrals are as many as the steps. |
| `Gauges.DeferralsExhaustTheGaugeOnly` | Backend/application/operations/live_session.py:272-282 | After any such run, of n deferrals in all, the gauge shows the retry cap reached exactly when the retries it showed and n make three, and arms that rule by day, while the gate grants a retry exactly as before the first of them. |
| `Apportionment.LargestRemainderIsOptimal` | Backend/application/simulation/scenario.py:219-231 | For all positive weights and every count, no integer split of the same size deviates less in total from the exact quotas than the allocation. |
| `Apportionment.AllocationIsAQuotaSplit` | Backend/application/simulation/scenario.py:219-231 | The shares sum to the count, each is its quota's floor or floor + 1, and the keys rounded up have the largest fractions. |
| `Apportionment.LargestFractionsThenLastNames` | Backend/application/simulation/scenario.py:224-231 | Whoever has a larger fraction than a key that was rounded up, or the same and a later name, was rounded up too. |
| `Apportionment.QuotasSumToCount` | Backend/application/simulation/scenario.py:219-221 | The exact quotas of positive weights share out the whole count. |
| `Apportionment.ThresholdSplitIsOptimal` | Backend/application/simulation/scenario.py:223-231 | Any split that rounds every quota by one threshold is the best of its size. |
| `Apportionment.ByFraction` | Backend/application/simulation/scenario.py:226-228 | The sort by falling fraction, ties by name, lists every key once and in that order. |
| `Interleaving.CycleIsFair` | Backend/application/simulation/scenario.py:233-239 | Each key is picked exactly its share, and in every prefix no key leads another by more than one unless the other has had its all. |
| `Interleaving.CycleHasCountPicks` | Backend/application/simulation/scenario.py:239 | The expansion has exactly count picks, so the final cut removes nothing. |
| `Interleaving.WeightedCycle` | Backend/application/simulation/scenario.py:211-239 | The imperative expansion equals the specified one. |
| `Interleaving.RoundUpLargest` | Backend/application/simulation/scenario.py:223-231 | The loop that hands out the remainder yields the largest-remainder allocation. |
| `Interleaving.DrainPools` | Backend/application/simulation/scenario.py:234-238 | The loop of rounds over shrinking pools terminates with the specified drain. |
| `Interleaving.DrainRound` | Backend/application/simulation/scenario.py:235-238 | One round appends one pick of every pool and keeps the pools that are not spent. |
| `Interleaving.DrainGivesEachItsShare` | Backend/application/simulation/scenario.py:233-238 | Draining gives every key exactly what its pool held. |
| `Interleaving.DrainIsFair` | Backend/application/simulation/scenario.py:233-238 | In every prefix of a drain no key is more than one ahead of another whose pool is not spent. |
| `Interleaving.DrainGoesRoundInOrder` | Backend/application/simulation/scenario.py:233-238 | A drain begins with one pick of every pool in the order of the names, and goes on with what they leave. |
| `EventStream.StreamSimulation` | Frontend/src/lib/api.ts:441-461 | For every way of cutting the stream into chunks the events are those of splitting the whole text once at its leftmost blank lines. |
| `EventStream.FramesOfMore` | Frontend/src/lib/api.ts:446-456 | Frames that are complete are not disturbed by text that arrives later; the rest is read together with it. |
| `EventStream.FramesRejoin` | Frontend/src/lib/api.ts:441-456 | Cutting a text loses nothing and leaves nothing uncut: its frames and the rest make it up, and none of them holds a blank line. |
| `EventStream.FrameYieldsExactlyWhen` | Frontend/src/lib/api.ts:463-478 | A frame yields an event exactly when it has a data line and its joined data can be read, and then that payload. |
| `EventStream.ParseFrame` | Frontend/src/lib/api.ts:463-478 | The loop over the lines reads the last event name and the joined data lines, or nothing. |
| `EventStream.WhatAFrameSays` | Frontend/src/lib/api.ts:463-471 | A frame is named by its last event line, or is a message without one, and its data are its data lines in order. |
| `EventStream.TrimCutsTheBlanks` | Frontend/src/lib/api.ts:468-469 | Exactly the blanks around a value are cut off. |
| `EventStream.LinesUndoJoin` | Frontend/src/lib/api.ts:467-474 | The joined data is cut back into the same lines. |
| `EventStream.FindBlank` | Frontend/src/lib/api.ts:447 | The position found is a blank line and none is earlier; minus one means there is none. |
| `EventStream.RoundTrip` | Backend/application/endpoints/simulation_api.py:31-32 | Printed events cut into chunks anywhere are read back exactly, in order. |
| `EventStream.BrokenStreamYieldsAPrefix` | Frontend/src/lib/api.ts:441-461 | A stream that breaks off anywhere yields a prefix of the printed events. |
| `RateLimiter.CapIsExact` | Backend/application/operations/rate_limiter.py:31-61 | From any counters, under every interleaving of any number of requests at statement level, the grants of a day are min(max(limit − counter, 0), updates run), the counter goes up by that number, and a refused request is told the limit, or the counter if that was past it. |
| `RateLimiter.RunKeepsInv` | Backend/application/operations/rate_limiter.py:31-61 | Every schedule keeps: the counter of a day is what it was and its grants, and what each request knows stays true. |
| `RateLimiter.CountersOnlyGrow` | Backend/application/operations/rate_limiter.py:36-53 | No statement of any request, a losing insert included, resets or lowers a counter, or takes it past the cap or past where it began. |
| `RateLimiter.AloneIsCheckAndIncrement` | Backend/application/operations/rate_limiter.py:31-61 | A request nobody interrupts gets exactly what the method promises, and nothing remains after a refusal. |
| `RateLimiter.UsageTable.CheckAndIncrement` | Backend/application/operations/rate_limiter.py:31-61 | Alone, a request is allowed exactly below the limit, adds one exactly then, and reports the counter. |
| `Replies.SeverityIsMonotoneExceptOneCrossing` | Backend/application/operations/reply_understanding.py:261-316 | Raising probabilities lowers the severity of the verdict in exactly one case: manipulation detected, the keyword verdict a termination, and the dispute probability crossing its gate below the two stops. |
| `Replies.PermissionIsAntitone` | Backend/application/operations/reply_understanding.py:261-316 | Raising any probability never turns a stop or a hold into permission to continue. |
| `Replies.WrappingNeverWeakensTheScreen` | Backend/application/operations/compliance_rules.py:63-80 | Wrapping a message in any text never weakens the keyword screen, whose verdicts Replies.ScreenedExactlyByItsPhrases gives. |
| `Replies.ScreenedExactlyByItsPhrases` | Backend/application/operations/compliance_rules.py:21-80 | For every text: a cancel phrase said anywhere, in any ASCII casing, ends the case; else an opt-out phrase does; else a dispute phrase escalates it; and it goes on exactly when none of the written-out phrases is said. |
| `Replies.AnOptOutIsHeard` | Backend/application/operations/compliance_rules.py:28-41 | Two opt-outs written out, with capitals. |
| `Replies.StopInsideAnInjectionIsHonoured` | Backend/application/operations/reply_understanding.py:274-278 | A stop phrase inside a detected injection never reads as permission to continue. |
| `Replies.FlaggedMessageContinuesExactlyWhen` | Backend/application/operations/reply_understanding.py:274-316 | A message the keyword screen flagged is let through exactly when its own question scores below 0.2, nothing is manipulated, no stop reaches the review band and no situation holds it. |
| `Replies.UnflaggedMessageContinuesExactlyWhen` | Backend/application/operations/reply_understanding.py:261-316 | A message the screen did not flag goes on exactly below 0.35 on every stop question and below 0.5 on a payment made and on hardship. |
| `Replies.StoppedOnExactly` | Backend/application/operations/reply_understanding.py:261-316 | Which rule a message is stopped on, for every judgment and every verdict of the screen. |
| `Calendar.NthWithinThirtyDays` | Backend/application/operations/language_parser.py:11-23 | For n from 1 to 31 and every Gregorian date, the date is today or one of the thirty days after. |
| `Calendar.NthOrFirstOfTheNext` | Backend/application/operations/language_parser.py:11-23 | It is the n-th of its target month or, where that is too short, the first of the month after. |
| `Calendar.ThirtyDaysIsReached` | Backend/application/operations/language_parser.py:11-23 | The bound of thirty days is reached. |
| `Calendar.InThePastExactlyWhen` | Backend/application/operations/language_parser.py:11-23 | For every number the promise of the doc comment, at or after today, is broken exactly for a number above 31 in a 31-day month past its first day. |
| `Calendar.FortyFifthOfJulyIsInThePast` | Backend/application/operations/language_parser.py:11-23 | A concrete number for which the date is in the past. |
| `Calendar.RollToMonth` | Backend/application/operations/language_parser.py:13-23 | The step-by-step roll of month and year gives the specified date. |
| `Calendar.RollOverIsTheMonthAfterUnlessLong` | Backend/application/operations/language_parser.py:20-23 | Thirty days after the first of a month is still that month exactly when it has 31 days. |
| `Calendar.AddDaysAddsToTheOrdinal` | Backend/application/operations/reply_understanding.py:240-254 | Adding days moves the day count by exactly that many, over all leap years. |
| `Calendar.OrdinalFollowsTheCalendar` | Backend/application/operations/reply_understanding.py:240-254 | The day count orders dates as the calendar does, and no two dates share one. |
| `Calendar.ResolvedDateIsWithinAMonth` | Backend/application/operations/reply_understanding.py:237-258 | Every date resolved without a written-out one is today or within 31 days. |
| `Calendar.ResolvedDayIs` | Backend/application/operations/reply_understanding.py:237-258 | Each answer as a day count from today: 0, 1, 2, 7, the days named, the last day of the month, the day of the month within thirty days, or the date written out. |
| `Promises.ThePromiseIsSoon` | Backend/application/operations/reply_understanding.py:373-388 | A promised date comes only from a committed reply that stops nothing and is within 31 days unless written out; an offer is one of the amounts typed. |
| `Promises.PromisedExactlyWhen` | Backend/application/operations/reply_understanding.py:373-388 | A date is promised exactly in a reply that goes on, commits and names a time the code resolves, a number counting only as a day the reply holds; an offer stands exactly in one that commits to an amount it holds. |
| `Promises.ReplyGoesOnExactlyWhen` | Backend/application/operations/reply_understanding.py:345-378 | A reply goes on exactly when it is blank, or the judge's probabilities and what the screen flagged let it, in numbers. |
| `Promises.NoPromiseFromAStoppedInjection` | Backend/application/operations/reply_understanding.py:373-388 | No judgment gets a date or permission out of a stop phrase inside a detected injection. |
| `Promises.DayCandidates` | Backend/application/operations/reply_understanding.py:69-76 | The loop yields the specified candidates. |
| `Promises.Candidates` | Backend/application/operations/reply_understanding.py:69-76 | The candidates are exactly the numbers from 1 to 31 that were found, once each. |
| `Speech.SpokenAmountsAreUnderstood` | Backend/application/operations/speech_format.py:57-112 | Every amount below 20 000 000 000 in English and 100 000 000 000 in Hindi is spoken without an index error, and a listener who splits the words and adds them up gets it back. |
| `Speech.DifferentAmountsSoundDifferent` | Backend/application/operations/speech_format.py:57-112 | So no two such amounts are spoken alike. |
| `Speech.AmountToWords` | Backend/application/operations/speech_format.py:57-112 | Peeling off crores, lakhs and thousands step by step gives the specified words, and fails with an index error exactly from those limits on. |
| `Speech.ThreeDigits` | Backend/application/operations/speech_format.py:47-54 | A group up to the limit is spoken as its words, and beyond it fails. |
| `Speech.AmountMeans` | Backend/application/operations/speech_format.py:57-76 | Adding up the number words of an amount gives the amount. |
| `Speech.SpokenExactlyBelowTheLimit` | Backend/application/operations/speech_format.py:57-112 | An amount has words exactly below the two limits, and nothing or less is zero. |
| `Speech.SplitUndoesJoin` | Backend/application/operations/speech_format.py:76 | Splitting at spaces undoes joining with them. |
| `NumberWords.HearsEveryWord` | Backend/application/operations/speech_format.py:12-37 | Every number word is free of spaces and is recognised as itself, so no two of the hundred Hindi words, nor of the English ones, are alike. |
| `Metrics.OtherRunsChangeNothing` | Backend/application/operations/reconciliation_service.py:33-54 | However many rows of other runs are added, wherever they land, the records a run is measured on stay the same. |
| `Metrics.FiguresAreDetermined` | Backend/application/operations/reconciliation_service.py:57-82 | Those records determine every figure, with the channels listed and the points of the series in order. |
| `Metrics.MoneyIsAccountedFor` | Backend/application/operations/reconciliation_service.py:57-77 | The three figures and the at-risk money of the run in the states pending, diagnosing, escalated and cancelled add up to what is at risk. |
| `Metrics.FiguresSumTheseStates` | Backend/application/operations/reconciliation_service.py:57-82 | Every headline and class figure as a sum over the transaction table, by run, state and class. |
| `Metrics.OneMoreTransaction` | Backend/application/operations/reconciliation_service.py:57-77 | One more at-risk transaction of the run raises what is at risk and exactly the figure of its state: recovered, intervening or waiting, failed, or none. |
| `Metrics.InScopeExactlyWhen` | Backend/application/operations/reconciliation_service.py:33-54 | In scope are exactly the transactions of the run and the audit rows and tickets of those. |
| `Metrics.ClassesAddUp` | Backend/application/operations/reconciliation_service.py:103-126 | The four class totals of any figure add up to the whole. |
| `Metrics.SeriesClimbsToTheTotal` | Backend/application/operations/reconciliation_service.py:158-177 | A series never falls and ends at the total recovered. |
| `Metrics.TimeSeries` | Backend/application/operations/reconciliation_service.py:158-177 | The two loops yield one point for every day something settled on, in order, with the money of that day and of all days up to it. |
| `Metrics.DailyTotals` | Backend/application/operations/reconciliation_service.py:160-163 | The dictionary built in the loop holds exactly the days something settled on and the money of each. |
| `Metrics.ByClass` | Backend/application/operations/reconciliation_service.py:103-126 | The loop over the classes yields the figures of each, which add up to what is at risk and to what is recovered. |
| `Metrics.ChannelBreakdown` | Backend/application/operations/reconciliation_service.py:145-155 | The loop yields, for exactly the channels that were used, the dispatches and the wins, a missing channel counting as a payment link. |
| `Metrics.ChannelsAddUp` | Backend/application/operations/reconciliation_service.py:145-155 | Every intervention is counted on one channel, and wins never outnumber dispatches. |
| `Metrics.BreakdownCountsTheRunsDispatches` | Backend/application/operations/reconciliation_service.py:145-155 | The breakdown counts exactly the interventions of the run's transactions on each channel, one without a channel as a link, and as won those of recovered ones. |
| `Metrics.ComputeMetrics` | Backend/application/operations/reconciliation_service.py:33-82 | The figures describe exactly the records in scope; the headlines sum the at-risk money of the run in all states, in recovered, in intervening and waiting, and in failed; recovered, in flight and lost never exceed what is at risk, and the series ends at what is recovered. |
| `Metrics.RunningSum` | Backend/application/operations/reconciliation_service.py:164-176 | The loop over the sorted days yields for each the money of that day and of all days up to it. |

## Left out

- Recovery.RecoveryCase.CheckLatestPayment, Recovery.RecoveryCase.ReconcilePending, Recovery.RecoveryCase.ForcePayment: a closed session, which is not polled and announces nothing, is not modelled there.
- One case per record: the sweeper's query over several cases is modelled as its share of one case.
- Entry points are atomic, except in the rate limiter; the database, its transactions, encryption and LangGraph's checkpoints are replaced by values.
- Razorpay, the payment MCP, Twilio, Vapi, ElevenLabs and the language models: their answers are inputs.
- The payment-link service, live recovery and operator status edits, which set states outside the ledger and the gates.
- Message texts, reasons, drafts, translations, payment URLs and other payload fields that no modelled code reads back.
- Calendar reminders: whether a turn booked one is an input, and its audit row is all that is modelled.
- Runs.StepRespectsVoiceCap: graph runs with a seeded call count, which only the batch tools pass, may exceed the cap and are not among its steps.
- Diagnosis and the repayment model: the playbook a graph run or a turn follows is an input.
- Floating point: rupees, percentages, weights and quotas are exact rationals.
- The sort by audit id before a trace is built: rows are given in the order of their ids.
- The texts of trace steps, and the playbook, channel and last rule of the transaction list.
- Top playbook, rates, funnel counts, rule counts and times to recovery in the metrics; figures are kept in paise.
- Regular expressions: the numbers, amounts and written-out date found in a reply are inputs; so is the promise date of the keyword fallback.
- Lower-casing and white space beyond ASCII in the keyword screen, and the upper end of the calendar at year 9999.
- Rounding of an amount to whole rupees before it is spoken, and the replacement of rupee amounts inside a text.
- JSON and UTF-8: payload text is opaque, with parse(dump(x)) = x and no line feed in dumped text.
- Server-sent events beyond line feeds, `event:` and `data:`: the client reads no other field.
- The hand-off of events between threads, React screens, prompts, seed data, trackers, administration, webhooks and settings.
