/** Reading one customer reply: the keyword screen, the thresholds over the judge's
    probabilities, and how the two are combined. */
module Replies {
  import opened Domain

  // --------------------------------------------------------- keyword screen

  /** ASCII letters are folded; every other character is left as it is. */
  function LowerChar(c: char): char { if 'A' <= c <= 'Z' then c - 'A' + 'a' else c }

  function Lower(s: string): string { seq(|s|, i requires 0 <= i < |s| => LowerChar(s[i])) }

  predicate OccursAt(text: string, phrase: string, i: int) {
    0 <= i <= |text| - |phrase| && text[i..i + |phrase|] == phrase
  }

  predicate Mentions(text: string, phrase: string) {
    exists i :: 0 <= i <= |text| && OccursAt(text, phrase, i)
  }

  predicate MentionsAny(text: string, phrases: seq<string>) {
    exists k :: 0 <= k < |phrases| && Mentions(text, phrases[k])
  }

  const CANCEL_PHRASES := [
    "cancel my plan", "cancel the plan", "cancel my subscription", "cancel subscription", "cancel karo", "plan cancel"]

  const OPT_OUT_PHRASES := [
    "stop", "unsubscribe", "opt out", "opt-out", "do not contact", "don't contact", "leave me alone", "remove me",
    "band karo", "band kar do", "mat bhejo", "rok do"]

  const DISPUTE_PHRASES := [
    "dispute", "wrong invoice", "wrong amount", "incorrect invoice", "incorrect line item", "wrong line item",
    "didn't order", "did not order", "not ordered", "galat invoice"]

  function Screen(text: string): Verdict {
    var haystack := Lower(text);
    if MentionsAny(haystack, CANCEL_PHRASES) then Verdict(Terminate, Some(ExplicitCancel))
    else if MentionsAny(haystack, OPT_OUT_PHRASES) then Verdict(Terminate, Some(OptOut))
    else if MentionsAny(haystack, DISPUTE_PHRASES) then Verdict(Escalate, Some(DisputeFreeze))
    else Verdict(Continue, None)
  }

  /** How much a disposition holds back. */
  function Severity(d: Disposition): nat {
    match d case Continue => 0 case Escalate => 1 case Terminate => 2
  }

  lemma MentionsWrapped(before: string, text: string, after: string, phrases: seq<string>)
    requires MentionsAny(text, phrases)
    ensures MentionsAny(before + text + after, phrases)
  {
    var k :| 0 <= k < |phrases| && Mentions(text, phrases[k]);
    var i :| 0 <= i <= |text| && OccursAt(text, phrases[k], i);
    var whole, j := before + text + after, |before| + i;
    assert whole[j..j + |phrases[k]|] == text[i..i + |phrases[k]|];
    assert OccursAt(whole, phrases[k], j);
    assert Mentions(whole, phrases[k]);
  }

  /** Wrapping a message in any text never weakens the screen. */
  lemma WrappingNeverWeakensTheScreen(before: string, text: string, after: string)
    ensures Severity(Screen(before + text + after).disposition) >= Severity(Screen(text).disposition)
  {
    assert Lower(before + text + after) == Lower(before) + Lower(text) + Lower(after);
    if MentionsAny(Lower(text), CANCEL_PHRASES) {
      MentionsWrapped(Lower(before), Lower(text), Lower(after), CANCEL_PHRASES);
    } else if MentionsAny(Lower(text), OPT_OUT_PHRASES) {
      MentionsWrapped(Lower(before), Lower(text), Lower(after), OPT_OUT_PHRASES);
    } else if MentionsAny(Lower(text), DISPUTE_PHRASES) {
      MentionsWrapped(Lower(before), Lower(text), Lower(after), DISPUTE_PHRASES);
    }
  }

  /** `said` is the phrase with any of its letters in capitals. */
  predicate CasingOf(said: string, phrase: string) {
    && |said| == |phrase|
    && forall i :: 0 <= i < |said| ==> said[i] == phrase[i] || ('a' <= phrase[i] <= 'z' && said[i] == phrase[i] - 'a' + 'A')
  }

  /** Somewhere in the text, in any casing, one of these phrases is said. */
  ghost predicate SaysOneOf(text: string, phrases: set<string>) {
    exists before, said, after, phrase :: Says(text, before, said, after, phrase) && phrase in phrases
  }

  predicate Says(text: string, before: string, said: string, after: string, phrase: string) {
    text == before + said + after && CasingOf(said, phrase)
  }

  predicate NoCapitals(phrase: string) { forall i :: 0 <= i < |phrase| ==> !('A' <= phrase[i] <= 'Z') }

  lemma MentionedWhenSaid(text: string, before: string, said: string, after: string, phrase: string)
    requires Says(text, before, said, after, phrase) && NoCapitals(phrase)
    ensures Mentions(Lower(text), phrase)
  {
    var i := |before|;
    assert text[i..i + |phrase|] == said;
    assert Lower(text)[i..i + |phrase|] == phrase;
    assert OccursAt(Lower(text), phrase, i);
  }

  lemma SaidWhenMentioned(text: string, phrase: string) returns (before: string, said: string, after: string)
    requires Mentions(Lower(text), phrase)
    ensures Says(text, before, said, after, phrase)
  {
    var i :| 0 <= i <= |Lower(text)| && OccursAt(Lower(text), phrase, i);
    before, said, after := text[..i], text[i..i + |phrase|], text[i + |phrase|..];
    forall k | 0 <= k < |said|
      ensures said[k] == phrase[k] || ('a' <= phrase[k] <= 'z' && said[k] == phrase[k] - 'a' + 'A')
    {
      assert phrase[k] == Lower(text)[i..i + |phrase|][k] == LowerChar(text[i + k]);
    }
  }

  lemma MentionedExactlyWhenSaid(text: string, list: seq<string>, phrases: set<string>)
    requires forall phrase :: phrase in list <==> phrase in phrases
    requires forall k :: 0 <= k < |list| ==> NoCapitals(list[k])
    ensures MentionsAny(Lower(text), list) <==> SaysOneOf(text, phrases)
  {
    if MentionsAny(Lower(text), list) {
      var k :| 0 <= k < |list| && Mentions(Lower(text), list[k]);
      var before, said, after := SaidWhenMentioned(text, list[k]);
      assert Says(text, before, said, after, list[k]) && list[k] in phrases;
    }
    if SaysOneOf(text, phrases) {
      var before, said, after, phrase :| Says(text, before, said, after, phrase) && phrase in phrases;
      var k :| 0 <= k < |list| && list[k] == phrase;
      MentionedWhenSaid(text, before, said, after, phrase);
    }
  }

  lemma CancelPhrasesAreLowerCase()
    ensures forall k :: 0 <= k < |CANCEL_PHRASES| ==> NoCapitals(CANCEL_PHRASES[k])
  {
  }

  lemma OptOutPhrasesAreLowerCase()
    ensures forall k :: 0 <= k < |OPT_OUT_PHRASES| ==> NoCapitals(OPT_OUT_PHRASES[k])
  {
  }

  lemma DisputePhrasesAreLowerCase()
    ensures forall k :: 0 <= k < |DISPUTE_PHRASES| ==> NoCapitals(DISPUTE_PHRASES[k])
  {
  }

  /** The screen is decided by which of these phrases are said, in any casing and with any
      text around them: a cancellation first, then an opt-out, then a dispute; and a text
      goes on exactly when none of them is said. */
  lemma ScreenedExactlyByItsPhrases(text: string)
    ensures
      var cancels := SaysOneOf(text, {"cancel my plan", "cancel the plan", "cancel my subscription", "cancel subscription",
        "cancel karo", "plan cancel"});
      var optsOut := SaysOneOf(text, {"stop", "unsubscribe", "opt out", "opt-out", "do not contact", "don't contact",
        "leave me alone", "remove me", "band karo", "band kar do", "mat bhejo", "rok do"});
      var disputes := SaysOneOf(text, {"dispute", "wrong invoice", "wrong amount", "incorrect invoice", "incorrect line item",
        "wrong line item", "didn't order", "did not order", "not ordered", "galat invoice"});
      && (Screen(text) == Verdict(Terminate, Some(ExplicitCancel)) <==> cancels)
      && (Screen(text) == Verdict(Terminate, Some(OptOut)) <==> optsOut && !cancels)
      && (Screen(text) == Verdict(Escalate, Some(DisputeFreeze)) <==> disputes && !optsOut && !cancels)
      && (Screen(text) == Verdict(Continue, None) <==> !disputes && !optsOut && !cancels)
  {
    CancelPhrasesAreLowerCase();
    OptOutPhrasesAreLowerCase();
    DisputePhrasesAreLowerCase();
    MentionedExactlyWhenSaid(text, CANCEL_PHRASES, {"cancel my plan", "cancel the plan", "cancel my subscription",
      "cancel subscription", "cancel karo", "plan cancel"});
    MentionedExactlyWhenSaid(text, OPT_OUT_PHRASES, {"stop", "unsubscribe", "opt out", "opt-out", "do not contact",
      "don't contact", "leave me alone", "remove me", "band karo", "band kar do", "mat bhejo", "rok do"});
    MentionedExactlyWhenSaid(text, DISPUTE_PHRASES, {"dispute", "wrong invoice", "wrong amount", "incorrect invoice",
      "incorrect line item", "wrong line item", "didn't order", "did not order", "not ordered", "galat invoice"});
  }

  lemma TooShortToCancel(text: string)
    requires |text| < 11
    ensures !MentionsAny(text, CANCEL_PHRASES)
  {
    assert forall k :: 0 <= k < |CANCEL_PHRASES| ==> |CANCEL_PHRASES[k]| >= 11;
  }

  /** Written out, with capitals. */
  lemma AnOptOutIsHeard()
    ensures Screen("Pls STOP") == Verdict(Terminate, Some(OptOut))
    ensures Screen("Rok Do!") == Verdict(Terminate, Some(OptOut))
  {
    Heard("Pls STOP", "pls stop", 4, 8, "stop");
    Heard("Rok Do!", "rok do!", 0, 6, "rok do");
  }

  lemma Heard(text: string, lower: string, i: nat, j: nat, phrase: string)
    requires |text| == |lower| && i <= j <= |lower| && lower[i..j] == phrase && phrase in OPT_OUT_PHRASES
    requires forall k :: 0 <= k < |text| ==> LowerChar(text[k]) == lower[k]
    requires |lower| < 11
    ensures Screen(text) == Verdict(Terminate, Some(OptOut))
  {
    TooShortToCancel(lower);
    assert Lower(text) == lower;
    assert OccursAt(lower, phrase, i);
    var k :| 0 <= k < |OPT_OUT_PHRASES| && OPT_OUT_PHRASES[k] == phrase;
    assert Mentions(lower, OPT_OUT_PHRASES[k]);
  }

  // ------------------------------------------------------------- thresholds

  const STOP_GATE := 0.5
  const REVIEW_FLOOR := 0.35
  const KEYWORD_OVERRULE_MAX := 0.2
  const MANIPULATION_GATE := 0.5
  const ALREADY_PAID_GATE := 0.5
  const HARDSHIP_GATE := 0.5

  /** The judge's probabilities. */
  datatype Judgment = Judgment(
    cancel: real, optOut: real, dispute: real, manipulation: real, alreadyPaid: real, hardship: real)

  /** The stop questions in order of precedence, with the rule and disposition of each. */
  datatype StopRule = StopRule(p: real, rule: StoppingRule, disposition: Disposition)

  function StopRules(j: Judgment): seq<StopRule> {
    [StopRule(j.cancel, ExplicitCancel, Terminate), StopRule(j.optOut, OptOut, Terminate),
     StopRule(j.dispute, DisputeFreeze, Escalate)]
  }

  /** The first rule whose probability reaches a gate. */
  function FirstAtLeast(rules: seq<StopRule>, gate: real): Option<StopRule> {
    if rules == [] then None
    else if rules[0].p >= gate then Some(rules[0])
    else FirstAtLeast(rules[1..], gate)
  }

  /** The judge's probability on the question the keyword screen flagged. */
  function OnKeyword(j: Judgment, rule: Option<StoppingRule>): real {
    if rule == Some(ExplicitCancel) then j.cancel else if rule == Some(OptOut) then j.optOut else j.dispute
  }

  const REVIEW := Verdict(Escalate, Some(HumanReview))

  /** Stop precedence, then the keyword screen, then the review band and the situations. */
  function Judge(j: Judgment, keyword: Verdict): Verdict {
    var stop := FirstAtLeast(StopRules(j), STOP_GATE);
    var flagged := !keyword.disposition.Continue?;
    if stop.Some? then Verdict(stop.value.disposition, Some(stop.value.rule))
    else if flagged && j.manipulation >= MANIPULATION_GATE then keyword
    else if flagged && OnKeyword(j, keyword.rule) >= KEYWORD_OVERRULE_MAX then REVIEW
    else if FirstAtLeast(StopRules(j), REVIEW_FLOOR).Some? then REVIEW
    else if j.alreadyPaid >= ALREADY_PAID_GATE then Verdict(Escalate, Some(NoDoubleCharge))
    else if j.hardship >= HARDSHIP_GATE then REVIEW
    else Verdict(Continue, None)
  }

  /** Every probability at least as high. */
  predicate AtMost(j: Judgment, k: Judgment) {
    && j.cancel <= k.cancel && j.optOut <= k.optOut && j.dispute <= k.dispute
    && j.manipulation <= k.manipulation && j.alreadyPaid <= k.alreadyPaid && j.hardship <= k.hardship
  }

  lemma FirstOfThree(j: Judgment, gate: real)
    ensures FirstAtLeast(StopRules(j), gate)
         == if j.cancel >= gate then Some(StopRule(j.cancel, ExplicitCancel, Terminate))
            else if j.optOut >= gate then Some(StopRule(j.optOut, OptOut, Terminate))
            else if j.dispute >= gate then Some(StopRule(j.dispute, DisputeFreeze, Escalate))
            else None
  {
    var rules := StopRules(j);
    assert rules[1..][1..] == [rules[2]] && rules[1..][0] == rules[1];
    assert FirstAtLeast(rules[1..][1..], gate) == if rules[2].p >= gate then Some(rules[2]) else None;
  }

  /** The one place where more certainty relaxes the answer: a manipulated message that
      the keyword screen would have stopped turns into a dispute. */
  predicate DisputeRelaxes(j: Judgment, k: Judgment, keyword: Verdict) {
    && j.manipulation >= MANIPULATION_GATE && keyword.disposition.Terminate?
    && j.dispute < STOP_GATE <= k.dispute && k.cancel < STOP_GATE && k.optOut < STOP_GATE
  }

  /** Raising probabilities lowers the severity in exactly that case. */
  lemma SeverityIsMonotoneExceptOneCrossing(j: Judgment, k: Judgment, keyword: Verdict)
    requires AtMost(j, k)
    ensures Severity(Judge(k, keyword).disposition) < Severity(Judge(j, keyword).disposition)
       <==> DisputeRelaxes(j, k, keyword)
  {
    FirstOfThree(j, STOP_GATE);
    FirstOfThree(k, STOP_GATE);
    FirstOfThree(j, REVIEW_FLOOR);
    FirstOfThree(k, REVIEW_FLOOR);
  }

  /** Raising any probability never turns a stop or a hold into permission to go on. */
  lemma PermissionIsAntitone(j: Judgment, k: Judgment, keyword: Verdict)
    requires AtMost(j, k) && Judge(k, keyword).disposition.Continue?
    ensures Judge(j, keyword).disposition.Continue?
  {
    SeverityIsMonotoneExceptOneCrossing(j, k, keyword);
    FirstOfThree(k, STOP_GATE);
  }

  /** A stop phrase inside a detected injection is never read as permission to go on,
      whatever surrounds it and whatever the judge thinks of it. */
  lemma StopInsideAnInjectionIsHonoured(before: string, text: string, after: string, j: Judgment)
    requires !Screen(text).disposition.Continue? && j.manipulation >= MANIPULATION_GATE
    ensures !Judge(j, Screen(before + text + after)).disposition.Continue?
  {
    WrappingNeverWeakensTheScreen(before, text, after);
    FirstOfThree(j, STOP_GATE);
  }

  /** The judge is heard below the keyword screen only when it is sure, and nothing else
      holds the message: exactly when a flagged message is let through. */
  lemma FlaggedMessageContinuesExactlyWhen(j: Judgment, keyword: Verdict)
    requires !keyword.disposition.Continue?
    requires keyword.rule in {Some(ExplicitCancel), Some(OptOut), Some(DisputeFreeze)}
    ensures Judge(j, keyword).disposition.Continue? <==>
      && (match keyword.rule.value case ExplicitCancel => j.cancel < 0.2 case OptOut => j.optOut < 0.2 case _ => j.dispute < 0.2)
      && j.manipulation < 0.5
      && j.cancel < 0.35 && j.optOut < 0.35 && j.dispute < 0.35 && j.alreadyPaid < 0.5 && j.hardship < 0.5
  {
    FirstOfThree(j, STOP_GATE);
    FirstOfThree(j, REVIEW_FLOOR);
  }

  /** A message that was not flagged goes on exactly when no stop comes near its gate and
      neither a payment nor hardship is likely; manipulation alone holds nothing back. */
  lemma UnflaggedMessageContinuesExactlyWhen(j: Judgment, keyword: Verdict)
    requires keyword.disposition.Continue?
    ensures Judge(j, keyword).disposition.Continue?
       <==> j.cancel < 0.35 && j.optOut < 0.35 && j.dispute < 0.35 && j.alreadyPaid < 0.5 && j.hardship < 0.5
    ensures Judge(j, keyword).disposition.Continue? ==> Judge(j, keyword) == Verdict(Continue, None)
  {
    FirstOfThree(j, STOP_GATE);
    FirstOfThree(j, REVIEW_FLOOR);
  }

  /** Which rule a message is stopped on: the likeliest stops first in their order, then the
      screen's own where the message is manipulated, then a payment already made where no
      stop is in sight, and a person's review in every case left. */
  lemma StoppedOnExactly(j: Judgment, keyword: Verdict)
    requires keyword in {Verdict(Continue, None), Verdict(Terminate, Some(ExplicitCancel)), Verdict(Terminate, Some(OptOut)),
                         Verdict(Escalate, Some(DisputeFreeze))}
    ensures var v := Judge(j, keyword);
      var kept := j.cancel < 0.5 && j.optOut < 0.5 && j.dispute < 0.5 && j.manipulation >= 0.5;
      && (v == Verdict(Terminate, Some(ExplicitCancel)) <==>
            j.cancel >= 0.5 || (kept && keyword.rule == Some(ExplicitCancel)))
      && (v == Verdict(Terminate, Some(OptOut)) <==>
            (j.cancel < 0.5 && j.optOut >= 0.5) || (kept && keyword.rule == Some(OptOut)))
      && (v == Verdict(Escalate, Some(DisputeFreeze)) <==>
            (j.cancel < 0.5 && j.optOut < 0.5 && j.dispute >= 0.5) || (kept && keyword.rule == Some(DisputeFreeze)))
      && (v == Verdict(Escalate, Some(NoDoubleCharge)) <==>
            && j.alreadyPaid >= 0.5 && Judge(j.(alreadyPaid := 0.0, hardship := 0.0), keyword) == Verdict(Continue, None))
      && (v.disposition.Continue? || v.rule in {Some(ExplicitCancel), Some(OptOut), Some(DisputeFreeze), Some(NoDoubleCharge)}
          || v == Verdict(Escalate, Some(HumanReview)))
  {
    FirstOfThree(j, STOP_GATE);
    FirstOfThree(j, REVIEW_FLOOR);
    FirstOfThree(j.(alreadyPaid := 0.0, hardship := 0.0), STOP_GATE);
    FirstOfThree(j.(alreadyPaid := 0.0, hardship := 0.0), REVIEW_FLOOR);
  }
}
