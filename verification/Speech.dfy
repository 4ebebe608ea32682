/** Rupee amounts in words, English and Hindi, in the Indian numbering system; and a
    listener who gets the amount back. */
module Speech {
  import opened Domain
  import opened NumberWords

  predicate HaveWords(language: Language, codes: seq<nat>) {
    forall i :: 0 <= i < |codes| ==> HasWord(language, codes[i])
  }

  function Words(language: Language, codes: seq<nat>): (words: seq<string>)
    requires HaveWords(language, codes)
  {
    seq(|codes|, i requires 0 <= i < |codes| => Word(language, codes[i]))
  }

  // ------------------------------------------------- what is to be spoken

  /** A language has no word for this many hundreds. */
  function HundredsLimit(language: Language): nat { if language == English then 20 else 100 }

  function TwoDigitCodes(language: Language, n: nat): (codes: seq<nat>)
    requires 0 < n < 100
    ensures codes != [] && HaveWords(language, codes)
  {
    if language == Hindi || n < 20 || n % 10 == 0 then [n] else [n - n % 10, n % 10]
  }

  function HundredsCodes(language: Language, hundreds: nat): (codes: seq<nat>)
    requires hundreds < HundredsLimit(language)
    ensures HaveWords(language, codes)
  {
    if hundreds == 0 then [] else [hundreds, HUNDRED]
  }

  function ThreeDigitCodes(language: Language, n: nat): (codes: seq<nat>)
    requires 0 < n < 100 * HundredsLimit(language)
    ensures codes != [] && HaveWords(language, codes)
  {
    HundredsCodes(language, n / 100) + if n % 100 == 0 then [] else TwoDigitCodes(language, n % 100)
  }

  function GroupCodes(language: Language, n: nat, multiplier: nat): (codes: seq<nat>)
    requires n < 100 * HundredsLimit(language) && HasWord(language, multiplier)
    ensures HaveWords(language, codes)
  {
    if n == 0 then [] else ThreeDigitCodes(language, n) + [multiplier]
  }

  function RestCodes(language: Language, n: nat): (codes: seq<nat>)
    requires n < 1000
    ensures HaveWords(language, codes)
  {
    if n == 0 then [] else ThreeDigitCodes(language, n)
  }

  const THOUSAND_VALUE := 1_000
  const LAKH_VALUE := 1_00_000
  const CRORE_VALUE := 1_00_00_000

  /** The first amount a language cannot speak. */
  function Limit(language: Language): nat { if language == English then 20_000_000_000 else 100_000_000_000 }

  function AmountCodes(language: Language, n: nat): (codes: seq<nat>)
    requires 0 < n < Limit(language)
    ensures HaveWords(language, codes)
  {
    GroupCodes(language, n / CRORE_VALUE, CRORE)
    + GroupCodes(language, n % CRORE_VALUE / LAKH_VALUE, LAKH)
    + GroupCodes(language, n % CRORE_VALUE % LAKH_VALUE / THOUSAND_VALUE, THOUSAND)
    + RestCodes(language, n % CRORE_VALUE % LAKH_VALUE % THOUSAND_VALUE)
  }

  // ----------------------------------------------------------- the printer

  function Join(words: seq<string>): string {
    if words == [] then ""
    else if |words| == 1 then words[0]
    else Join(words[..|words| - 1]) + " " + words[|words| - 1]
  }

  function Zero(language: Language): string { if language == English then "Zero" else HindiRow(0)[0] }

  function AmountInWords(language: Language, amount: int): Option<string> {
    if amount <= 0 then Some(Zero(language))
    else if amount >= Limit(language) then None
    else Some(Join(Words(language, AmountCodes(language, amount))))
  }

  lemma JoinOne(words: seq<string>, word: string)
    ensures Join(words + [word]) == if words == [] then word else Join(words) + " " + word
  {
    assert (words + [word])[..|words|] == words;
  }

  lemma {:induction false} JoinAppends(a: seq<string>, b: seq<string>)
    requires a != [] && b != []
    ensures Join(a + b) == Join(a) + " " + Join(b)
  {
    var front, last := b[..|b| - 1], b[|b| - 1];
    assert b == front + [last] && a + b == (a + front) + [last];
    JoinOne(a + front, last);
    JoinOne(front, last);
    if front == [] {
      assert a + front == a;
    } else {
      JoinAppends(a, front);
      assert Join(a) + " " + Join(front) + " " + last == Join(a) + " " + (Join(front) + " " + last);
    }
  }

  /** `parts` and `words` read the same; a part may be several words. */
  predicate ReadAlike(parts: seq<string>, words: seq<string>) {
    Join(parts) == Join(words) && (parts == [] <==> words == [])
  }

  lemma OnePartMore(parts: seq<string>, words: seq<string>, part: seq<string>)
    requires ReadAlike(parts, words) && part != []
    ensures ReadAlike(parts + [Join(part)], words + part)
  {
    JoinOne(parts, Join(part));
    if words == [] {
      assert words + part == part;
    } else {
      JoinAppends(words, part);
    }
  }

  lemma WordsOfBoth(language: Language, a: seq<nat>, b: seq<nat>)
    requires HaveWords(language, a) && HaveWords(language, b)
    ensures HaveWords(language, a + b)
    ensures Words(language, a + b) == Words(language, a) + Words(language, b)
  {}

  function TwoDigits(language: Language, n: nat): string
    requires n < 100
  {
    match language
    case English => if n < 20 then ONES[n] else TENS[n / 10] + if n % 10 != 0 then " " + ONES[n % 10] else ""
    case Hindi => HindiRow(n / 10)[n % 10]
  }

  lemma TwoDigitsReads(language: Language, n: nat)
    requires 0 < n < 100
    ensures TwoDigits(language, n) == Join(Words(language, TwoDigitCodes(language, n)))
  {
    var codes := TwoDigitCodes(language, n);
    if |codes| == 2 {
      var words := Words(language, codes);
      assert words == [words[0]] + [words[1]];
      JoinOne([words[0]], words[1]);
    }
  }

  lemma HundredsRead(language: Language, hundreds: nat)
    requires 0 < hundreds < HundredsLimit(language)
    ensures ReadAlike([] + [Word(language, hundreds) + " " + Word(language, HUNDRED)],
                      Words(language, HundredsCodes(language, hundreds)))
  {
    var high := Words(language, HundredsCodes(language, hundreds));
    assert high == [Word(language, hundreds)] + [Word(language, HUNDRED)];
    JoinOne([Word(language, hundreds)], Word(language, HUNDRED));
  }

  /** `None` is the index error of a number of hundreds without a word. */
  method ThreeDigits(language: Language, n: nat) returns (r: Option<string>)
    ensures r == if n >= 100 * HundredsLimit(language) then None
                 else if n == 0 then Some("")
                 else Some(Join(Words(language, ThreeDigitCodes(language, n))))
  {
    var hundreds, rest := n / 100, n % 100;
    if hundreds >= HundredsLimit(language) { return None; }
    var parts: seq<string> := [];
    ghost var high := HundredsCodes(language, hundreds);
    if hundreds > 0 {
      HundredsRead(language, hundreds);
      parts := parts + [Word(language, hundreds) + " " + Word(language, HUNDRED)];
    }
    if rest > 0 {
      TwoDigitsReads(language, rest);
      OnePartMore(parts, Words(language, high), Words(language, TwoDigitCodes(language, rest)));
      WordsOfBoth(language, high, TwoDigitCodes(language, rest));
      parts := parts + [TwoDigits(language, rest)];
    } else if hundreds > 0 {
      assert ThreeDigitCodes(language, n) == high;
    }
    r := Some(Join(parts));
  }

  /** One group of the amount, as it is appended to the parts. */
  method Group(language: Language, n: nat, multiplier: nat, parts: seq<string>, ghost words: seq<string>)
    returns (r: Option<seq<string>>)
    requires HasWord(language, multiplier) && ReadAlike(parts, words)
    ensures r.None? <==> n >= 100 * HundredsLimit(language)
    ensures r.Some? ==> ReadAlike(r.value, words + Words(language, GroupCodes(language, n, multiplier)))
  {
    if n == 0 {
      assert words + Words(language, []) == words;
      return Some(parts);
    }
    var spoken := ThreeDigits(language, n);
    if spoken.None? { return None; }
    ghost var group := Words(language, GroupCodes(language, n, multiplier));
    assert group == Words(language, ThreeDigitCodes(language, n)) + [Word(language, multiplier)];
    JoinOne(Words(language, ThreeDigitCodes(language, n)), Word(language, multiplier));
    OnePartMore(parts, words, group);
    r := Some(parts + [spoken.value + " " + Word(language, multiplier)]);
  }

  method Rest(language: Language, n: nat, parts: seq<string>, ghost words: seq<string>) returns (r: seq<string>)
    requires n < 1000 && ReadAlike(parts, words)
    ensures ReadAlike(r, words + Words(language, RestCodes(language, n)))
  {
    if n == 0 {
      assert words + Words(language, []) == words;
      return parts;
    }
    var spoken := ThreeDigits(language, n);
    OnePartMore(parts, words, Words(language, ThreeDigitCodes(language, n)));
    r := parts + [spoken.value];
  }

  /** The words of the four groups, put together. */
  lemma WordsOfGroups(language: Language, a: seq<nat>, b: seq<nat>, c: seq<nat>, d: seq<nat>)
    requires HaveWords(language, a) && HaveWords(language, b) && HaveWords(language, c) && HaveWords(language, d)
    ensures HaveWords(language, a + b + c + d)
    ensures Words(language, a + b + c + d)
         == [] + Words(language, a) + Words(language, b) + Words(language, c) + Words(language, d)
  {
    WordsOfBoth(language, a, b);
    WordsOfBoth(language, a + b, c);
    WordsOfBoth(language, a + b + c, d);
    assert [] + Words(language, a) == Words(language, a);
  }

  /** Peels the crores, lakhs and thousands off the amount and speaks each. */
  method AmountToWords(language: Language, amount: int) returns (r: Option<string>)
    ensures r == AmountInWords(language, amount)
  {
    var n := amount;
    if n <= 0 { return Some(Zero(language)); }
    var crore, lakh, thousand;
    crore, n := n / CRORE_VALUE, n % CRORE_VALUE;
    lakh, n := n / LAKH_VALUE, n % LAKH_VALUE;
    thousand, n := n / THOUSAND_VALUE, n % THOUSAND_VALUE;
    var withCrore := Group(language, crore, CRORE, [], []);
    if withCrore.None? { return None; }
    ghost var words := [] + Words(language, GroupCodes(language, crore, CRORE));
    var withLakh := Group(language, lakh, LAKH, withCrore.value, words);
    words := words + Words(language, GroupCodes(language, lakh, LAKH));
    var withThousand := Group(language, thousand, THOUSAND, withLakh.value, words);
    words := words + Words(language, GroupCodes(language, thousand, THOUSAND));
    var parts := Rest(language, n, withThousand.value, words);
    WordsOfGroups(language, GroupCodes(language, crore, CRORE), GroupCodes(language, lakh, LAKH),
      GroupCodes(language, thousand, THOUSAND), RestCodes(language, n));
    r := Some(Join(parts));
  }

  // ---------------------------------------------------------- the listener

  function ExtendLast(words: seq<string>, more: string): seq<string>
    requires words != []
  {
    words[..|words| - 1] + [words[|words| - 1] + more]
  }

  lemma ExtendTwice(words: seq<string>, more: string, c: char)
    requires words != []
    ensures ExtendLast(ExtendLast(words, more), [c]) == ExtendLast(words, more + [c])
  {
    assert words[|words| - 1] + more + [c] == words[|words| - 1] + (more + [c]);
  }

  /** Cuts at every space. */
  function Split(text: string): (words: seq<string>)
    ensures words != []
  {
    if text == "" then [""]
    else
      var words, c := Split(text[..|text| - 1]), text[|text| - 1];
      if c == ' ' then words + [""] else ExtendLast(words, [c])
  }

  lemma SplitExtendsByOne(text: string, c: char)
    requires c != ' '
    ensures Split(text + [c]) == ExtendLast(Split(text), [c])
  {
    assert (text + [c])[..|text|] == text;
  }

  lemma {:induction false} SplitExtendsTheLastWord(text: string, word: string)
    requires SpaceFree(word)
    ensures Split(text + word) == ExtendLast(Split(text), word)
  {
    if word == "" {
      var words := Split(text);
      assert text + word == text && words[|words| - 1] + word == words[|words| - 1];
    } else {
      var front, c := word[..|word| - 1], word[|word| - 1];
      SplitExtendsTheLastWord(text, front);
      SplitExtendsByOne(text + front, c);
      ExtendTwice(Split(text), front, c);
      assert front + [c] == word && text + front + [c] == text + word;
    }
  }

  /** Splitting undoes joining. */
  lemma {:induction false} SplitUndoesJoin(words: seq<string>)
    requires words != [] && forall i :: 0 <= i < |words| ==> SpaceFree(words[i])
    ensures Split(Join(words)) == words
  {
    var front, last := words[..|words| - 1], words[|words| - 1];
    assert words == front + [last];
    if front == [] {
      SplitExtendsTheLastWord("", last);
      assert "" + last == last;
    } else {
      SplitUndoesJoin(front);
      var text := Join(front) + " ";
      assert text[..|text| - 1] == Join(front);
      SplitExtendsTheLastWord(text, last);
    }
  }

  /** The codes heard, unless some word is not recognised. */
  function HearAll(hear: string -> Option<nat>, words: seq<string>): Option<seq<nat>> {
    if words == [] then Some([])
    else
      var before, last := HearAll(hear, words[..|words| - 1]), hear(words[|words| - 1]);
      if before.None? || last.None? then None else Some(before.value + [last.value])
  }

  lemma {:induction false} HearsAll(hear: string -> Option<nat>, words: seq<string>, codes: seq<nat>)
    requires |words| == |codes| && forall i :: 0 <= i < |words| ==> hear(words[i]) == Some(codes[i])
    ensures HearAll(hear, words) == Some(codes)
  {
    if words != [] {
      var n := |words| - 1;
      HearsAll(hear, words[..n], codes[..n]);
      assert codes == codes[..n] + [codes[n]];
    }
  }

  // ----------------------------------------------------- what the words mean

  /** What has been added up, and the group being heard. */
  datatype Tally = Tally(total: nat, group: nat)

  function ValueOfMultiplier(code: nat): nat {
    if code == THOUSAND then THOUSAND_VALUE else if code == LAKH then LAKH_VALUE else CRORE_VALUE
  }

  function Add(t: Tally, code: nat): Tally {
    if code < HUNDRED then t.(group := t.group + code)
    else if code == HUNDRED then t.(group := 100 * t.group)
    else Tally(t.total + t.group * ValueOfMultiplier(code), 0)
  }

  function AddAll(t: Tally, codes: seq<nat>): Tally {
    if codes == [] then t else Add(AddAll(t, codes[..|codes| - 1]), codes[|codes| - 1])
  }

  function Total(codes: seq<nat>): nat {
    var tally := AddAll(Tally(0, 0), codes);
    tally.total + tally.group
  }

  /** The amount a listener understands. */
  function Understand(language: Language, text: string): Option<nat> {
    var codes := HearAll(word => Hear(language, word), Split(text));
    if codes.None? then None else Some(Total(codes.value))
  }

  lemma {:induction false} AddAllOfBoth(t: Tally, a: seq<nat>, b: seq<nat>)
    ensures AddAll(t, a + b) == AddAll(AddAll(t, a), b)
  {
    if b == [] {
      assert a + b == a;
    } else {
      AddAllOfBoth(t, a, b[..|b| - 1]);
      assert (a + b)[..|a + b| - 1] == a + b[..|b| - 1];
    }
  }

  lemma AddAllOfOne(t: Tally, code: nat)
    ensures AddAll(t, [code]) == Add(t, code)
  {
    assert AddAll(t, [code][..0]) == t;
  }

  lemma AddAllOfTwo(t: Tally, a: nat, b: nat)
    ensures AddAll(t, [a, b]) == Add(Add(t, a), b)
  {
    assert [a, b] == [a] + [b];
    AddAllOfBoth(t, [a], [b]);
    AddAllOfOne(t, a);
    AddAllOfOne(Add(t, a), b);
  }

  lemma TwoDigitsMean(language: Language, t: Tally, n: nat)
    requires 0 < n < 100
    ensures AddAll(t, TwoDigitCodes(language, n)) == Tally(t.total, t.group + n)
  {
    AddAllOfOne(t, n);
    AddAllOfTwo(t, n - n % 10, n % 10);
  }

  lemma ThreeDigitsMean(language: Language, total: nat, n: nat)
    requires 0 < n < 100 * HundredsLimit(language)
    ensures AddAll(Tally(total, 0), ThreeDigitCodes(language, n)) == Tally(total, n)
  {
    var t := Tally(total, 0);
    var high := HundredsCodes(language, n / 100);
    AddAllOfTwo(t, n / 100, HUNDRED);
    if n % 100 > 0 {
      AddAllOfBoth(t, high, TwoDigitCodes(language, n % 100));
      TwoDigitsMean(language, AddAll(t, high), n % 100);
    } else {
      assert high + [] == high;
    }
  }

  lemma GroupMeans(language: Language, total: nat, n: nat, multiplier: nat)
    requires n < 100 * HundredsLimit(language) && THOUSAND <= multiplier <= CRORE
    ensures AddAll(Tally(total, 0), GroupCodes(language, n, multiplier))
         == Tally(total + n * ValueOfMultiplier(multiplier), 0)
  {
    if n > 0 {
      ThreeDigitsMean(language, total, n);
      AddAllOfBoth(Tally(total, 0), ThreeDigitCodes(language, n), [multiplier]);
      AddAllOfOne(Tally(total, n), multiplier);
    }
  }

  lemma AddAllOfFour(a: seq<nat>, b: seq<nat>, c: seq<nat>, d: seq<nat>, x: nat, y: nat, z: nat)
    requires AddAll(Tally(0, 0), a) == Tally(x, 0) && AddAll(Tally(x, 0), b) == Tally(y, 0)
    requires AddAll(Tally(y, 0), c) == Tally(z, 0)
    ensures AddAll(Tally(0, 0), a + b + c + d) == AddAll(Tally(z, 0), d)
  {
    AddAllOfBoth(Tally(0, 0), a + b + c, d);
    AddAllOfBoth(Tally(0, 0), a + b, c);
    AddAllOfBoth(Tally(0, 0), a, b);
  }

  lemma RestMeans(language: Language, total: nat, n: nat)
    requires n < 1000
    ensures AddAll(Tally(total, 0), RestCodes(language, n)) == Tally(total, n)
  {
    if n > 0 { ThreeDigitsMean(language, total, n); }
  }

  lemma AmountMeans(language: Language, n: nat)
    requires 0 < n < Limit(language)
    ensures Total(AmountCodes(language, n)) == n && AmountCodes(language, n) != []
  {
    var crore, belowCrore := n / CRORE_VALUE, n % CRORE_VALUE;
    var lakh, belowLakh := belowCrore / LAKH_VALUE, belowCrore % LAKH_VALUE;
    var thousand, rest := belowLakh / THOUSAND_VALUE, belowLakh % THOUSAND_VALUE;
    var x := crore * CRORE_VALUE;
    var y := x + lakh * LAKH_VALUE;
    var z := y + thousand * THOUSAND_VALUE;
    GroupMeans(language, 0, crore, CRORE);
    GroupMeans(language, x, lakh, LAKH);
    GroupMeans(language, y, thousand, THOUSAND);
    AddAllOfFour(GroupCodes(language, crore, CRORE), GroupCodes(language, lakh, LAKH),
      GroupCodes(language, thousand, THOUSAND), RestCodes(language, rest), x, y, z);
    RestMeans(language, z, rest);
  }

  lemma WordsAreHeard(language: Language, codes: seq<nat>)
    requires HaveWords(language, codes)
    ensures HearAll(word => Hear(language, word), Words(language, codes)) == Some(codes)
    ensures forall i :: 0 <= i < |codes| ==> SpaceFree(Words(language, codes)[i])
  {
    var words := Words(language, codes);
    forall i | 0 <= i < |codes|
      ensures Hear(language, words[i]) == Some(codes[i]) && SpaceFree(words[i])
    {
      HearsEveryWord(language, codes[i]);
    }
    HearsAll(word => Hear(language, word), words, codes);
  }

  lemma TextIsUnderstood(language: Language, codes: seq<nat>)
    requires HaveWords(language, codes) && codes != []
    ensures Understand(language, Join(Words(language, codes))) == Some(Total(codes))
  {
    WordsAreHeard(language, codes);
    SplitUndoesJoin(Words(language, codes));
  }

  /** Every amount that can be spoken is understood as itself. */
  lemma SpokenAmountsAreUnderstood(language: Language, amount: int)
    requires 0 < amount < Limit(language)
    ensures AmountInWords(language, amount).Some?
    ensures Understand(language, AmountInWords(language, amount).value) == Some(amount)
  {
    AmountMeans(language, amount);
    TextIsUnderstood(language, AmountCodes(language, amount));
  }

  /** So no two amounts are spoken alike. */
  lemma DifferentAmountsSoundDifferent(language: Language, a: int, b: int)
    requires 0 < a < Limit(language) && 0 < b < Limit(language)
    requires AmountInWords(language, a) == AmountInWords(language, b)
    ensures a == b
  {
    SpokenAmountsAreUnderstood(language, a);
    SpokenAmountsAreUnderstood(language, b);
  }

  /** An amount has words exactly below two thousand crore in English and ten thousand crore in
      Hindi; nothing and less is zero. */
  lemma SpokenExactlyBelowTheLimit(amount: int)
    ensures AmountInWords(English, amount).Some? <==> amount < 20_000_000_000
    ensures AmountInWords(Hindi, amount).Some? <==> amount < 100_000_000_000
    ensures amount <= 0 ==> AmountInWords(English, amount) == Some("Zero") && AmountInWords(Hindi, amount) == Some("शून्य")
  {
  }
}
