/** The views derived from an audit trail: the decision trace, the server's bounds and
    the browser's bounds, and how their counts agree with one another. */
module Bounds {
  import opened Domain
  import opened Ledger

  // ------------------------------------------------------------- the counts

  predicate IsRetryCharge(r: AuditRow) { IsDispatch(r) && r.action == Some(RetryCharge) }

  predicate IsScheduled(r: AuditRow) { r.actionType.RetryScheduled? }

  /** A scheduled retry that a rule put there, as a deferral in quiet hours does. */
  predicate IsRuledRetry(r: AuditRow) { IsScheduled(r) && r.rule.Some? }

  /** A call by its action, whatever the channel. */
  predicate IsCall(r: AuditRow) { IsDispatch(r) && (r.channel == Some(Voice) || r.action == Some(Action.VoiceCall)) }

  /** A call by its action on some other channel. */
  predicate IsStrayCall(r: AuditRow) { IsCall(r) && r.channel != Some(Voice) }

  predicate UsesRetry(r: AuditRow) { IsRetryCharge(r) || IsScheduled(r) }

  predicate UsesPlainRetry(r: AuditRow) { UsesRetry(r) && !IsRuledRetry(r) }

  lemma {:induction false} CountSplits(rows: seq<AuditRow>, p: AuditRow -> bool, q: AuditRow -> bool,
                                       whole: AuditRow -> bool)
    requires forall r: AuditRow :: whole(r) <==> p(r) || q(r)
    requires forall r: AuditRow :: !(p(r) && q(r))
    ensures Count(rows, whole) == Count(rows, p) + Count(rows, q)
  {
    if rows != [] { CountSplits(rows[..|rows| - 1], p, q, whole); }
  }

  lemma {:induction false} CountGrows(rows: seq<AuditRow>, k: nat, p: AuditRow -> bool)
    requires k <= |rows|
    ensures Count(rows[..k], p) <= Count(rows, p)
  {
    if k < |rows| {
      CountGrows(rows[..|rows| - 1], k, p);
      assert rows[..|rows| - 1][..k] == rows[..k];
    } else {
      assert rows[..k] == rows;
    }
  }

  // ------------------------------------------------ channels, in order of use

  predicate Uses(r: AuditRow, channel: Channel) { IsDispatch(r) && r.channel == Some(channel) }

  function ChannelsUsed(rows: seq<AuditRow>): seq<Channel> {
    if rows == [] then []
    else
      var earlier, r := ChannelsUsed(rows[..|rows| - 1]), rows[|rows| - 1];
      if IsDispatch(r) && r.channel.Some? && r.channel.value !in earlier then earlier + [r.channel.value] else earlier
  }

  /** The first row that used a channel; past the end when none did. */
  function FirstUse(rows: seq<AuditRow>, channel: Channel): (k: nat)
    ensures k <= |rows|
    ensures k < |rows| ==> Uses(rows[k], channel)
    ensures forall i :: 0 <= i < k ==> !Uses(rows[i], channel)
  {
    if rows == [] then 0
    else
      var n := |rows| - 1;
      var k := FirstUse(rows[..n], channel);
      if k < n || Uses(rows[n], channel) then k else n + 1
  }

  /** Exactly the channels that were used are listed, in the order of their first use. */
  lemma {:induction false} ChannelsInOrderOfFirstUse(rows: seq<AuditRow>)
    ensures var listed := ChannelsUsed(rows);
      && (forall channel :: channel in listed <==> FirstUse(rows, channel) < |rows|)
      && (forall i, j :: 0 <= i < j < |listed| ==> FirstUse(rows, listed[i]) < FirstUse(rows, listed[j]))
  {
    if rows != [] {
      ChannelsInOrderOfFirstUse(rows[..|rows| - 1]);
    }
  }

  // -------------------------------------------------------------- the trace

  /** What a case had spent when a step was decided. */
  datatype Budgets = Budgets(retriesUsed: nat, voiceUsed: nat, channelsUsed: seq<Channel>, dispatches: nat)

  datatype TraceStep = TraceStep(step: nat, node: NodeName, rule: Option<StoppingRule>, allowedAtThisMoment: Budgets)

  /** The budgets of a list of rows, each a plain count over it. */
  function Spent(rows: seq<AuditRow>): Budgets {
    Budgets(Count(rows, UsesPlainRetry), Count(rows, IsVoiceDispatch), ChannelsUsed(rows), Count(rows, IsDispatch))
  }

  /** Render the rows of a case, in order, as its decision trace. */
  method BuildTrace(rows: seq<AuditRow>) returns (steps: seq<TraceStep>)
    ensures |steps| == |rows|
    ensures forall k :: 0 <= k < |rows| ==>
      steps[k] == TraceStep(k + 1, rows[k].node, rows[k].rule, Spent(rows[..k + 1]))
  {
    steps := [];
    var budgets := Budgets(0, 0, [], 0);
    for index := 0 to |rows|
      invariant budgets == Spent(rows[..index])
      invariant |steps| == index
      invariant forall k :: 0 <= k < index ==>
        steps[k] == TraceStep(k + 1, rows[k].node, rows[k].rule, Spent(rows[..k + 1]))
    {
      var row := rows[index];
      assert rows[..index + 1][..index] == rows[..index];
      if row.actionType.InterventionDispatch? {
        budgets := budgets.(dispatches := budgets.dispatches + 1);
        if row.channel.Some? && row.channel.value !in budgets.channelsUsed {
          budgets := budgets.(channelsUsed := budgets.channelsUsed + [row.channel.value]);
        }
        if row.channel == Some(Voice) {
          budgets := budgets.(voiceUsed := budgets.voiceUsed + 1);
        }
        if row.action == Some(RetryCharge) {
          budgets := budgets.(retriesUsed := budgets.retriesUsed + 1);
        }
      } else if row.actionType.RetryScheduled? && row.rule.None? {
        budgets := budgets.(retriesUsed := budgets.retriesUsed + 1);
      }
      steps := steps + [TraceStep(index + 1, row.node, row.rule, budgets)];
    }
  }

  /** Along a trace no budget is ever given back. */
  lemma BudgetsNeverShrink(rows: seq<AuditRow>, k: nat)
    requires k <= |rows|
    ensures var early, late := Spent(rows[..k]), Spent(rows);
      && early.retriesUsed <= late.retriesUsed && early.voiceUsed <= late.voiceUsed
      && early.dispatches <= late.dispatches && early.channelsUsed <= late.channelsUsed
  {
    CountGrows(rows, k, UsesPlainRetry);
    CountGrows(rows, k, IsVoiceDispatch);
    CountGrows(rows, k, IsDispatch);
    ChannelsGrow(rows, k);
  }

  lemma {:induction false} ChannelsGrow(rows: seq<AuditRow>, k: nat)
    requires k <= |rows|
    ensures ChannelsUsed(rows[..k]) <= ChannelsUsed(rows)
  {
    if k < |rows| {
      ChannelsGrow(rows[..|rows| - 1], k);
      assert rows[..|rows| - 1][..k] == rows[..k];
    } else {
      assert rows[..k] == rows;
    }
  }

  // ------------------------------------------------------------- the bounds

  datatype Budget = Budget(used: nat, cap: nat, exhausted: bool)

  /** `nextActionAt` is on the Indian wall clock in the server's view and in
      milliseconds of Coordinated Universal Time in the browser's. */
  datatype View = View(
    retries: Budget, voice: Budget, totalDispatches: nat,
    channelsAllowed: seq<Channel>, channelsUsed: seq<Channel>, channelsRemaining: seq<Channel>,
    armedRule: Option<StoppingRule>, firedRule: Option<StoppingRule>,
    nextActionAt: Option<int>, inQuietHours: bool, closed: bool)

  function Capped(used: nat, cap: nat): Budget { Budget(if used < cap then used else cap, cap, used >= cap) }

  /** The members of `xs` that are in `s`, or that are not. */
  function Keep(xs: seq<Channel>, s: set<Channel>, inside: bool): seq<Channel> {
    if xs == [] then []
    else
      var front, last := Keep(xs[..|xs| - 1], s, inside), xs[|xs| - 1];
      if (last in s) == inside then front + [last] else front
  }

  /** Which rule would halt the case next. */
  function Armed(retries: nat, voice: nat, quiet: bool, failureClass: int): Option<StoppingRule> {
    if quiet then Some(TraiQuietHours)
    else if retries >= RBI_MAX_RETRIES then Some(RbiMaxRetries)
    else if voice >= VOICE_ATTEMPT_CAP then Some(VoiceAttemptCap)
    else if failureClass == 3 && retries > 0 then Some(RbiMaxRetries)
    else if voice > 0 then Some(VoiceAttemptCap)
    else None
  }

  /** The channels some dispatch used. */
  function Used(rows: seq<AuditRow>): set<Channel> { set channel | channel in ChannelsUsed(rows) }

  /** The bounds of a case, as counts over its trail. */
  function Gauge(rows: seq<AuditRow>, state: LifecycleState, allowed: seq<Channel>, failureClass: int,
                 fired: Option<StoppingRule>, now: Instant): View {
    var retries, voice, closed := Count(rows, UsesRetry), Count(rows, IsCall), TerminalState(state);
    var quiet := !closed && QuietHours(now);
    View(Capped(retries, RBI_MAX_RETRIES), Capped(voice, VOICE_ATTEMPT_CAP), Count(rows, IsDispatch),
         allowed, Keep(allowed, Used(rows), true), Keep(allowed, Used(rows), false),
         if closed then None else Armed(retries, voice, quiet, failureClass), fired,
         if quiet then Some(NextQuietHoursEnd(now)) else None, quiet, closed)
  }

  function FirstRule(rows: seq<AuditRow>): Option<StoppingRule> {
    if rows == [] then None
    else
      var earlier := FirstRule(rows[..|rows| - 1]);
      if earlier.Some? then earlier else rows[|rows| - 1].rule
  }

  function One(b: bool): nat { if b then 1 else 0 }

  /** What the row at `k` adds to each count of the bounds. */
  lemma OneMoreRow(rows: seq<AuditRow>, k: nat)
    requires k < |rows|
    ensures var before, after, row := rows[..k], rows[..k + 1], rows[k];
      && Count(after, UsesRetry) == Count(before, UsesRetry) + One(UsesRetry(row))
      && Count(after, IsCall) == Count(before, IsCall) + One(IsCall(row))
      && Count(after, IsDispatch) == Count(before, IsDispatch) + One(IsDispatch(row))
      && Used(after) == Used(before) + (if IsDispatch(row) && row.channel.Some? then {row.channel.value} else {})
      && FirstRule(after) == if FirstRule(before).Some? then FirstRule(before) else row.rule
  {
    assert rows[..k + 1][..k] == rows[..k];
  }

  method Filter(xs: seq<Channel>, s: set<Channel>, inside: bool) returns (r: seq<Channel>)
    ensures r == Keep(xs, s, inside)
  {
    r := [];
    for k := 0 to |xs|
      invariant r == Keep(xs[..k], s, inside)
    {
      assert xs[..k + 1][..k] == xs[..k];
      if (xs[k] in s) == inside { r := r + [xs[k]]; }
    }
    assert xs[..|xs|] == xs;
  }

  method ServerArmed(closed: bool, quiet: bool, retries: nat, voice: nat, failureClass: int)
    returns (armed: Option<StoppingRule>)
    ensures armed == if closed then None else Armed(retries, voice, quiet, failureClass)
  {
    armed := None;
    if !closed {
      if quiet {
        armed := Some(TraiQuietHours);
      } else if retries >= 3 {
        armed := Some(RbiMaxRetries);
      } else if voice >= 2 {
        armed := Some(VoiceAttemptCap);
      } else if failureClass == 3 && retries > 0 {
        armed := Some(RbiMaxRetries);
      } else if voice > 0 {
        armed := Some(VoiceAttemptCap);
      }
    }
  }

  /** The server's bounds: it reports the rule it is given, or else the first of the trail. */
  method ServerBounds(audits: seq<AuditRow>, state: LifecycleState, allowed: seq<Channel>, failureClass: int,
                      stoppingRule: Option<StoppingRule>, clock: Instant) returns (view: View)
    ensures view == Gauge(audits, state, allowed, failureClass,
                          if stoppingRule.Some? then stoppingRule else FirstRule(audits), clock)
  {
    var used: set<Channel> := {};
    var retries, voice, total, fired := 0, 0, 0, stoppingRule;
    for k := 0 to |audits|
      invariant used == Used(audits[..k])
      invariant retries == Count(audits[..k], UsesRetry) && voice == Count(audits[..k], IsCall)
      invariant total == Count(audits[..k], IsDispatch)
      invariant fired == if stoppingRule.Some? then stoppingRule else FirstRule(audits[..k])
    {
      var row := audits[k];
      OneMoreRow(audits, k);
      if row.actionType.InterventionDispatch? {
        total := total + 1;
        if row.channel.Some? { used := used + {row.channel.value}; }
        if row.channel == Some(Voice) || row.action == Some(Action.VoiceCall) { voice := voice + 1; }
        if row.action == Some(RetryCharge) { retries := retries + 1; }
      }
      if row.actionType.RetryScheduled? { retries := retries + 1; }
      if fired.None? { fired := row.rule; }
    }
    assert audits[..|audits|] == audits;
    var closed := state.Recovered? || state.Escalated? || state.Cancelled? || state.Failed?;
    var quiet := !closed && QuietHours(clock);
    var armed := ServerArmed(closed, quiet, retries, voice, failureClass);
    var inUse := Filter(allowed, used, true);
    var left := Filter(allowed, used, false);
    view := View(Budget(MinInt(retries, 3), 3, retries >= 3), Budget(MinInt(voice, 2), 2, voice >= 2), total,
                 allowed, inUse, left, armed, fired, if quiet then Some(NextQuietHoursEnd(clock)) else None, quiet, closed);
  }

  // ---------------------------------------------------- the browser's copy

  const SECOND_MS := 1_000
  const HOUR_MS := 3_600_000
  const DAY_MS := 86_400_000
  const IST_OFFSET_MS := 330 * 60_000

  /** The Indian wall clock, in whole seconds, at a moment of the browser. */
  function WallClock(now: int): Instant { (now + IST_OFFSET_MS) / SECOND_MS }

  function IstHour(now: int): int { (now + IST_OFFSET_MS) % DAY_MS / HOUR_MS }

  predicate IsQuietHours(now: int) { IstHour(now) >= QUIET_HOURS_START || IstHour(now) < QUIET_HOURS_END }

  /** The browser shifts the moment, sets the hour on the shifted date, and shifts back. */
  method BrowserNextQuietHoursEnd(now: int) returns (end: int)
    ensures end == NextQuietHoursEnd(WallClock(now)) * SECOND_MS - IST_OFFSET_MS
  {
    var shifted := now + IST_OFFSET_MS;
    var target := shifted - shifted % DAY_MS + QUIET_HOURS_END * HOUR_MS;
    MidnightInMilliseconds(shifted);
    if target <= shifted { target := target + DAY_MS; }
    end := target - IST_OFFSET_MS;
  }

  lemma MidnightInMilliseconds(shifted: int)
    ensures shifted - shifted % DAY_MS == (shifted / SECOND_MS - shifted / SECOND_MS % DAY) * SECOND_MS
    ensures shifted % DAY_MS / HOUR_MS == shifted / SECOND_MS % DAY / HOUR
  {
    var day := shifted / DAY_MS;
    var ms := shifted % DAY_MS;
    var s, rest := ms / SECOND_MS, ms % SECOND_MS;
    assert shifted == (day * DAY + s) * SECOND_MS + rest;
    assert shifted / SECOND_MS == day * DAY + s;
    assert (day * DAY + s) % DAY == s;
  }

  /** The browser's view of bounds computed on the server, with the rule it was given. */
  function InBrowser(view: View, fired: Option<StoppingRule>): View {
    view.(firedRule := fired,
          nextActionAt := match view.nextActionAt
            case Some(at) => Some(at * SECOND_MS - IST_OFFSET_MS)
            case None => None)
  }

  function BrowserArmed(retries: Budget, voice: Budget, quiet: bool, failureClass: int): Option<StoppingRule> {
    if quiet then Some(TraiQuietHours)
    else if retries.exhausted then Some(RbiMaxRetries)
    else if voice.exhausted then Some(VoiceAttemptCap)
    else if failureClass == 3 && retries.used > 0 then Some(RbiMaxRetries)
    else if voice.used > 0 then Some(VoiceAttemptCap)
    else None
  }

  lemma QuietHoursAgree(now: int)
    ensures IsQuietHours(now) <==> QuietHours(WallClock(now))
  {
    MidnightInMilliseconds(now + IST_OFFSET_MS);
  }

  lemma RulesAreArmedAlike(retries: nat, voice: nat, quiet: bool, failureClass: int)
    ensures BrowserArmed(Capped(retries, RBI_MAX_RETRIES), Capped(voice, VOICE_ATTEMPT_CAP), quiet, failureClass)
         == Armed(retries, voice, quiet, failureClass)
  {}

  /** The browser recomputes the bounds of a case from the same trail. Whatever rule each
      side was told, they agree on every other field. */
  method ComputeBounds(auditTrail: seq<AuditRow>, status: LifecycleState, allowed: seq<Channel>, failureClass: int,
                       stoppingRule: Option<StoppingRule>, now: int, ghost serverRule: Option<StoppingRule>)
    returns (view: View)
    ensures view == InBrowser(Gauge(auditTrail, status, allowed, failureClass, serverRule, WallClock(now)), stoppingRule)
  {
    var totalDispatches, voiceUsed, retriesUsed := 0, 0, 0;
    var used: set<Channel> := {};
    for k := 0 to |auditTrail|
      invariant used == Used(auditTrail[..k])
      invariant retriesUsed == Count(auditTrail[..k], UsesRetry) && voiceUsed == Count(auditTrail[..k], IsCall)
      invariant totalDispatches == Count(auditTrail[..k], IsDispatch)
    {
      var entry := auditTrail[k];
      OneMoreRow(auditTrail, k);
      if entry.actionType.InterventionDispatch? {
        totalDispatches := totalDispatches + 1;
        if entry.channel.Some? { used := used + {entry.channel.value}; }
        if entry.channel == Some(Voice) || entry.action == Some(Action.VoiceCall) { voiceUsed := voiceUsed + 1; }
        if entry.action == Some(RetryCharge) { retriesUsed := retriesUsed + 1; }
      }
      if entry.actionType.RetryScheduled? { retriesUsed := retriesUsed + 1; }
    }
    assert auditTrail[..|auditTrail|] == auditTrail;
    var channelsUsed := Filter(allowed, used, true);
    var channelsRemaining := Filter(allowed, used, false);
    var retries := Budget(MinInt(retriesUsed, RBI_MAX_RETRIES), RBI_MAX_RETRIES, retriesUsed >= RBI_MAX_RETRIES);
    var voice := Budget(MinInt(voiceUsed, VOICE_ATTEMPT_CAP), VOICE_ATTEMPT_CAP, voiceUsed >= VOICE_ATTEMPT_CAP);
    var closed := TerminalState(status);
    var quiet := !closed && IsQuietHours(now);
    QuietHoursAgree(now);
    RulesAreArmedAlike(retriesUsed, voiceUsed, quiet, failureClass);
    var nextActionAt := None;
    if quiet {
      var end := BrowserNextQuietHoursEnd(now);
      nextActionAt := Some(end);
    }
    view := View(retries, voice, totalDispatches, allowed, channelsUsed, channelsRemaining,
                 if closed then None else BrowserArmed(retries, voice, quiet, failureClass),
                 stoppingRule, nextActionAt, quiet, closed);
  }

  // ------------------------------------------------------ how they compare

  /** The bounds count a scheduled retry that a rule put there and the trace does not:
      their retries differ by exactly those rows, and their calls by exactly the rows
      that name the call action on another channel. */
  lemma BoundsExceedTheTrace(rows: seq<AuditRow>)
    ensures Count(rows, UsesRetry) == Spent(rows).retriesUsed + Count(rows, IsRuledRetry)
    ensures Count(rows, IsCall) == Spent(rows).voiceUsed + Count(rows, IsStrayCall)
    ensures Count(rows, IsDispatch) == Spent(rows).dispatches
  {
    CountSplits(rows, UsesPlainRetry, IsRuledRetry, UsesRetry);
    CountSplits(rows, IsVoiceDispatch, IsStrayCall, IsCall);
  }

  /** The channels in use and those remaining share out the allowed ones. */
  lemma {:induction false} ChannelsAreSharedOut(allowed: seq<Channel>, s: set<Channel>)
    ensures multiset(Keep(allowed, s, true)) + multiset(Keep(allowed, s, false)) == multiset(allowed)
  {
    if allowed != [] {
      var front, last := allowed[..|allowed| - 1], allowed[|allowed| - 1];
      ChannelsAreSharedOut(front, s);
      assert allowed == front + [last];
    }
  }

  // ------------------------------------------------- the view, field by field

  /** The rule a trail fired is that of its earliest row that names one. */
  lemma {:induction false} FirstRuleIsTheEarliest(rows: seq<AuditRow>, k: nat)
    requires k <= |rows| && forall j :: 0 <= j < k ==> rows[j].rule == None
    requires k < |rows| ==> rows[k].rule != None
    ensures FirstRule(rows) == if k < |rows| then rows[k].rule else None
  {
    if rows != [] {
      var front := rows[..|rows| - 1];
      FirstRuleIsTheEarliest(front, if k == |rows| then k - 1 else k);
    }
  }

  /** Some dispatch of the trail used the channel. */
  predicate WasUsed(rows: seq<AuditRow>, channel: Channel) {
    exists k :: 0 <= k < |rows| && rows[k].actionType == InterventionDispatch && rows[k].channel == Some(channel)
  }

  lemma UsedChannels(rows: seq<AuditRow>, channel: Channel)
    ensures channel in Used(rows) <==> WasUsed(rows, channel)
  {
    ChannelsInOrderOfFirstUse(rows);
    var k := FirstUse(rows, channel);
    assert k < |rows| ==> Uses(rows[k], channel);
    if WasUsed(rows, channel) {
      var i :| 0 <= i < |rows| && rows[i].actionType == InterventionDispatch && rows[i].channel == Some(channel);
      assert Uses(rows[i], channel);
    }
  }

  lemma {:induction false} KeptMembers(xs: seq<Channel>, s: set<Channel>, inside: bool, channel: Channel)
    ensures channel in Keep(xs, s, inside) <==> channel in xs && (channel in s <==> inside)
  {
    if xs != [] {
      KeptMembers(xs[..|xs| - 1], s, inside, channel);
      assert xs == xs[..|xs| - 1] + [xs[|xs| - 1]];
    }
  }

  /** An allowed channel is shown as used exactly when a dispatch of the trail used it, and as
      remaining exactly when none did; nothing else is shown as either. */
  lemma ChannelsShown(rows: seq<AuditRow>, state: LifecycleState, allowed: seq<Channel>, failureClass: int,
                      fired: Option<StoppingRule>, now: Instant, channel: Channel)
    ensures var view := Gauge(rows, state, allowed, failureClass, fired, now);
      && (channel in view.channelsUsed <==> channel in allowed && WasUsed(rows, channel))
      && (channel in view.channelsRemaining <==> channel in allowed && !WasUsed(rows, channel))
  {
    UsedChannels(rows, channel);
    KeptMembers(allowed, Used(rows), true, channel);
    KeptMembers(allowed, Used(rows), false, channel);
  }

  /** What one more row adds: to the bounds a retry for a charge or anything scheduled, a call
      for the channel or the action, and a dispatch; to the trace the same, but no retry for
      what a rule scheduled and no call for the action alone. */
  lemma WhatARowAdds(rows: seq<AuditRow>, row: AuditRow)
    ensures var before, after, sent := Spent(rows), Spent(rows + [row]), row.actionType == InterventionDispatch;
      && Count(rows + [row], UsesRetry)
         == Count(rows, UsesRetry) + One((sent && row.action == Some(RetryCharge)) || row.actionType == RetryScheduled)
      && Count(rows + [row], IsCall)
         == Count(rows, IsCall) + One(sent && (row.channel == Some(Voice) || row.action == Some(Action.VoiceCall)))
      && after.retriesUsed
         == before.retriesUsed
            + One((sent && row.action == Some(RetryCharge)) || (row.actionType == RetryScheduled && row.rule == None))
      && after.voiceUsed == before.voiceUsed + One(sent && row.channel == Some(Voice))
      && after.dispatches == before.dispatches + One(sent)
  {
    CountOneMore(rows, row, UsesRetry);
    CountOneMore(rows, row, IsCall);
    CountOneMore(rows, row, UsesPlainRetry);
    CountOneMore(rows, row, IsVoiceDispatch);
    CountOneMore(rows, row, IsDispatch);
  }

  /** The other fields: what was spent of three retries and two calls, which rule would halt the
      case next, and when contact resumes, for a case that is not closed. */
  lemma BudgetsShown(rows: seq<AuditRow>, state: LifecycleState, allowed: seq<Channel>, failureClass: int,
                     fired: Option<StoppingRule>, now: Instant)
    ensures var view := Gauge(rows, state, allowed, failureClass, fired, now);
      var retries, calls := Count(rows, UsesRetry), Count(rows, IsCall);
      && view.retries == Budget(MinInt(retries, 3), 3, retries >= 3) && view.voice == Budget(MinInt(calls, 2), 2, calls >= 2)
      && (view.closed <==> state in {Recovered, Escalated, Cancelled, Failed})
      && (view.inQuietHours <==> !view.closed && !(32_400 <= now % 86_400 < 72_000))
      && (view.nextActionAt.Some? <==> view.inQuietHours)
      && (view.armedRule == Some(TraiQuietHours) <==> view.inQuietHours)
      && (view.armedRule == Some(RbiMaxRetries) <==>
            && !view.closed && !view.inQuietHours
            && (retries >= 3 || (calls < 2 && failureClass == 3 && retries >= 1)))
      && (view.armedRule == Some(VoiceAttemptCap) <==>
            && !view.closed && !view.inQuietHours && retries < 3
            && (calls >= 2 || (calls == 1 && !(failureClass == 3 && retries >= 1))))
      && (view.armedRule.Some? ==> view.armedRule.value in {TraiQuietHours, RbiMaxRetries, VoiceAttemptCap})
  {
  }
}
