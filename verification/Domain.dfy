/** The closed vocabularies of the recovery engine and the fixed compliance
    constants every gate reads. */
module Domain {

  datatype Option<+T> = None | Some(value: T) {
    function GetOr(default: T): T {
      if Some? then value else default
    }
  }

  datatype LifecycleState =
    | Pending | Diagnosing | Waiting | Intervening
    | Recovered | Escalated | Cancelled | Failed

  datatype Channel = WhatsApp | Voice | PaymentLink

  datatype Action =
    | SendWhatsApp | VoiceCall | OfferFeeWaiver | GeneratePaymentLink
    | GenerateQrCode | OfferPartialPlan | RetryCharge | CancelSubscription

  datatype StoppingRule =
    | NoDoubleCharge | CrossDeviceCompletion | RbiMaxRetries | ExplicitCancel
    | OptOut | DisputeFreeze | TraiQuietHours | VoiceAttemptCap | HumanReview

  datatype Disposition = Continue | Terminate | Escalate

  /** What a reading of a customer message asks the engine to do. */
  datatype Verdict = Verdict(disposition: Disposition, rule: Option<StoppingRule>)

  datatype Playbook =
    | RerouteRail | PreauthLink | UpiAutopayNudge | Negotiation
    | SalaryCycleSequencer | MandateRefresh | P2pTracker

  /** The tools a model, or a client, may name. The last three never dispatch. */
  datatype Tool =
    | SendWhatsApp | VoiceCall | GeneratePaymentLink | GenerateQrCode
    | OfferPartialPlan | OfferFeeWaiver | ScheduleRetry | HandoffToHuman | Stop

  const RBI_MAX_RETRIES := 3
  const VOICE_ATTEMPT_CAP := 2
  const WHATSAPP_NUDGE_CAP := 3
  const QUIET_HOURS_START := 20
  const QUIET_HOURS_END := 9

  /** Action, channel and non-dispatching state each tool resolves to. */
  function Resolve(tool: Tool): (Option<Action>, Option<Channel>, Option<LifecycleState>) {
    match tool
    case SendWhatsApp => (Some(Action.SendWhatsApp), Some(WhatsApp), None)
    case VoiceCall => (Some(Action.VoiceCall), Some(Voice), None)
    case GeneratePaymentLink => (Some(Action.GeneratePaymentLink), Some(PaymentLink), None)
    case GenerateQrCode => (Some(Action.GenerateQrCode), Some(PaymentLink), None)
    case OfferPartialPlan => (Some(Action.OfferPartialPlan), Some(PaymentLink), None)
    case OfferFeeWaiver => (Some(Action.OfferFeeWaiver), Some(WhatsApp), None)
    case ScheduleRetry => (Some(RetryCharge), None, Some(Waiting))
    case HandoffToHuman => (None, None, Some(Escalated))
    case Stop => (None, None, Some(Cancelled))
  }

  /** Action and channel a playbook stands for. */
  function PlaybookAction(p: Playbook): (Action, Option<Channel>) {
    match p
    case RerouteRail => (Action.GeneratePaymentLink, Some(PaymentLink))
    case PreauthLink => (Action.GeneratePaymentLink, Some(PaymentLink))
    case UpiAutopayNudge => (Action.SendWhatsApp, Some(WhatsApp))
    case Negotiation => (Action.OfferFeeWaiver, Some(WhatsApp))
    case SalaryCycleSequencer => (RetryCharge, None)
    case MandateRefresh => (Action.VoiceCall, Some(Voice))
    case P2pTracker => (Action.SendWhatsApp, Some(WhatsApp))
  }

  /** The tool whose action and channel a playbook shares. */
  function ToolForPlaybook(p: Playbook): (t: Tool)
    ensures Resolve(t).0 == Some(PlaybookAction(p).0)
    ensures Resolve(t).1 == PlaybookAction(p).1
    ensures t != HandoffToHuman && t != Stop && t != Tool.OfferPartialPlan
  {
    match p
    case RerouteRail => Tool.GeneratePaymentLink
    case PreauthLink => Tool.GeneratePaymentLink
    case UpiAutopayNudge => Tool.SendWhatsApp
    case Negotiation => Tool.OfferFeeWaiver
    case SalaryCycleSequencer => ScheduleRetry
    case MandateRefresh => Tool.VoiceCall
    case P2pTracker => Tool.SendWhatsApp
  }

  /** The playbook a failure class opens with: classes 1 to 4. */
  function DefaultPlaybook(failureClass: int): Playbook {
    if failureClass == 1 then RerouteRail
    else if failureClass == 2 then UpiAutopayNudge
    else if failureClass == 3 then SalaryCycleSequencer
    else P2pTracker
  }

  predicate RetryCapExceeded(retries: int, cap: int) { retries >= cap }

  predicate VoiceAttemptsExhausted(attempts: int) { attempts >= VOICE_ATTEMPT_CAP }

  predicate NudgesExhausted(nudges: int) { nudges >= WHATSAPP_NUDGE_CAP }

  // ------------------------------------------------------------- the clock

  /** A moment on the Indian wall clock, in seconds from some past midnight. */
  type Instant = int

  const HOUR := 3600
  const DAY := 86400

  function HourOf(t: Instant): int { t % DAY / HOUR }

  predicate QuietHours(t: Instant) {
    HourOf(t) >= QUIET_HOURS_START || HourOf(t) < QUIET_HOURS_END
  }

  /** Nine o'clock on the day of `t`, or on the next day when that has passed. */
  function NextQuietHoursEnd(t: Instant): Instant {
    var target := t - t % DAY + QUIET_HOURS_END * HOUR;
    if target <= t then target + DAY else target
  }

  lemma SameDay(t: Instant, u: Instant)
    requires t - t % DAY <= u < t - t % DAY + DAY
    ensures u % DAY == u - (t - t % DAY)
  {
    var d := t / DAY;
    assert t == d * DAY + t % DAY;
    assert 0 <= u - d * DAY < DAY;
    assert u / DAY == d;
  }

  /** The moment a deferral resumes at is the first one, from a quiet moment on,
      at which contact is allowed again. */
  lemma NextQuietHoursEndIsTheFirstOpenMoment(t: Instant)
    requires QuietHours(t)
    ensures var end := NextQuietHoursEnd(t);
            && t < end <= t + DAY
            && !QuietHours(end)
            && forall u :: t <= u < end ==> QuietHours(u)
  {
    var midnight, end := t - t % DAY, NextQuietHoursEnd(t);
    if end < midnight + DAY {
      SameDay(t, end);
    } else {
      var next := midnight + DAY;
      assert next % DAY == 0 by { assert next == (t / DAY + 1) * DAY; }
      SameDay(next, end);
    }
    forall u | t <= u < end
      ensures QuietHours(u)
    {
      if u < midnight + DAY {
        SameDay(t, u);
      } else {
        var next := midnight + DAY;
        assert next % DAY == 0 by { assert next == (t / DAY + 1) * DAY; }
        SameDay(next, u);
      }
    }
  }
}
