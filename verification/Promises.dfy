/** The reading of one customer reply: the verdict, the promised date and the offer. */
module Promises {
  import opened Domain
  import opened Calendar
  import opened Replies

  const COMMIT_GATE := 0.5
  const NOTHING_STOPS := Verdict(Continue, None)

  // ---------------------------------------------------------- candidate days

  /** The one- or two-digit numbers of a reply that can be a day, in order, once each. */
  function Candidates(found: seq<nat>): (days: seq<nat>)
    ensures forall n :: n in days <==> n in found && 1 <= n <= 31
    ensures forall i, j :: 0 <= i < j < |days| ==> days[i] != days[j]
  {
    if found == [] then []
    else
      var earlier, n := Candidates(found[..|found| - 1]), found[|found| - 1];
      if 1 <= n <= 31 && n !in earlier then earlier + [n] else earlier
  }

  method DayCandidates(found: seq<nat>) returns (seen: seq<nat>)
    ensures seen == Candidates(found)
  {
    seen := [];
    for k := 0 to |found|
      invariant seen == Candidates(found[..k])
    {
      var n := found[k];
      assert found[..k + 1][..k] == found[..k];
      if 1 <= n <= 31 && n !in seen {
        seen := seen + [n];
      }
    }
    assert found[..|found|] == found;
  }

  // ----------------------------------------------------------- the assembly

  /** The judge's answers about a reply: the probabilities, the time it says, and its
      picks among the numbers and the amounts of the text. */
  datatype Answers = Answers(
    stops: Judgment, commits: real, when: When, number: Option<nat>, offer: Option<string>)

  /** What code, not the judge, finds in the text. */
  datatype Findings = Findings(numbers: seq<nat>, amounts: map<string, int>, explicit: Option<Date>)

  datatype Reading = Reading(verdict: Verdict, promised: Option<Date>, offer: Option<int>)

  predicate Blank(text: string) { forall i :: 0 <= i < |text| ==> text[i] in " \t\n\r" }

  function ReadReply(text: string, answers: Answers, found: Findings, today: Date): Reading
    requires IsDate(today)
  {
    if Blank(text) then Reading(NOTHING_STOPS, None, None)
    else
      var verdict := Judge(answers.stops, Screen(text));
      var commits := answers.commits >= COMMIT_GATE;
      var number := match answers.number
        case Some(n) => if n in Candidates(found.numbers) then Some(n) else None
        case None => None;
      var promised := if commits && verdict.disposition.Continue?
                      then ResolveDate(answers.when, number, found.explicit, today) else None;
      var offer := match answers.offer
        case Some(pick) => if commits && pick in found.amounts then Some(found.amounts[pick]) else None
        case None => None;
      Reading(verdict, promised, offer)
  }

  /** A reply is read to go on exactly when it is blank, or neither the screen nor the judge
      holds it: every stop is unlikely, no payment and no hardship is reported, and what the
      screen flagged is no injection and all but ruled out. */
  lemma ReplyGoesOnExactlyWhen(text: string, answers: Answers, found: Findings, today: Date)
    requires IsDate(today)
    ensures var j, screened := answers.stops, Screen(text);
      ReadReply(text, answers, found, today).verdict.disposition.Continue?
      <==> || (forall i :: 0 <= i < |text| ==> text[i] in {' ', '\t', '\n', '\r'})
           || (&& j.cancel < 0.35 && j.optOut < 0.35 && j.dispute < 0.35 && j.alreadyPaid < 0.5 && j.hardship < 0.5
               && (screened.rule.Some? ==> j.manipulation < 0.5)
               && (screened.rule == Some(ExplicitCancel) ==> j.cancel < 0.2)
               && (screened.rule == Some(OptOut) ==> j.optOut < 0.2)
               && (screened.rule == Some(DisputeFreeze) ==> j.dispute < 0.2))
  {
    if Screen(text).disposition.Continue? {
      UnflaggedMessageContinuesExactlyWhen(answers.stops, Screen(text));
    } else {
      FlaggedMessageContinuesExactlyWhen(answers.stops, Screen(text));
    }
  }

  /** A date is promised exactly in a reply that goes on, commits, and says a time the code can
      resolve, a number counting only where it is a day the reply itself holds; and an offer
      stands exactly in a reply that commits to an amount typed in it. */
  lemma PromisedExactlyWhen(text: string, answers: Answers, found: Findings, today: Date)
    requires IsDate(today) && !Blank(text)
    ensures var reading := ReadReply(text, answers, found, today);
      var heard := if answers.number.Some? && answers.number.value in found.numbers && 1 <= answers.number.value <= 31
                   then answers.number else None;
      && reading.promised == (if reading.verdict.disposition.Continue? && answers.commits >= 0.5
                              then ResolveDate(answers.when, heard, found.explicit, today) else None)
      && (reading.offer.Some? <==> answers.commits >= 0.5 && answers.offer.Some? && answers.offer.value in found.amounts)
      && (reading.offer.Some? ==> reading.offer.value == found.amounts[answers.offer.value])
  {
  }

  /** Whatever the judge answers, a promised date comes only from a committed reply that
      stops nothing, and it is today or within thirty-one days unless the reply wrote
      it out; and an offer is one of the amounts the customer typed. */
  lemma ThePromiseIsSoon(text: string, answers: Answers, found: Findings, today: Date)
    requires IsDate(today)
    ensures var reading := ReadReply(text, answers, found, today);
            && (reading.promised.Some? ==>
                  && reading.verdict.disposition.Continue? && answers.commits >= COMMIT_GATE
                  && (found.explicit.None? ==> FromTodayWithin(reading.promised.value, today, 31)))
            && (reading.offer.Some? ==> reading.offer.value in found.amounts.Values)
  {
    var number := match answers.number
      case Some(n) => if n in Candidates(found.numbers) then Some(n) else None
      case None => None;
    if found.explicit.None? { ResolvedDateIsWithinAMonth(answers.when, number, today); }
  }

  lemma MentioningIsNotBlank(text: string, phrases: seq<string>)
    requires MentionsAny(Lower(text), phrases)
    requires forall k :: 0 <= k < |phrases| ==> |phrases[k]| > 0 && 'a' <= phrases[k][0] <= 'z'
    ensures !Blank(text)
  {
    var k :| 0 <= k < |phrases| && Mentions(Lower(text), phrases[k]);
    var i :| 0 <= i <= |text| && OccursAt(Lower(text), phrases[k], i);
    assert Lower(text)[i] == Lower(text)[i..i + |phrases[k]|][0];
    assert text[i] !in " \t\n\r";
  }

  lemma FlaggedTextIsNotBlank(text: string)
    requires !Screen(text).disposition.Continue?
    ensures !Blank(text)
  {
    if MentionsAny(Lower(text), CANCEL_PHRASES) {
      MentioningIsNotBlank(text, CANCEL_PHRASES);
    } else if MentionsAny(Lower(text), OPT_OUT_PHRASES) {
      MentioningIsNotBlank(text, OPT_OUT_PHRASES);
    } else {
      MentioningIsNotBlank(text, DISPUTE_PHRASES);
    }
  }

  /** No judgment gets a date, or permission to continue, out of a reply that asks to
      stop inside a detected injection. */
  lemma NoPromiseFromAStoppedInjection(
    before: string, text: string, after: string, answers: Answers, found: Findings, today: Date)
    requires IsDate(today)
    requires !Screen(text).disposition.Continue? && answers.stops.manipulation >= MANIPULATION_GATE
    ensures var reading := ReadReply(before + text + after, answers, found, today);
            !reading.verdict.disposition.Continue? && reading.promised.None?
  {
    StopInsideAnInjectionIsHonoured(before, text, after, answers.stops);
    WrappingNeverWeakensTheScreen(before, text, after);
    FlaggedTextIsNotBlank(before + text + after);
  }
}
