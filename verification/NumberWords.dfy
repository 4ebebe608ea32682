/** The number words of the two languages, and the proof that no two of them are alike. */
module NumberWords {
  import opened Domain

  datatype Language = English | Hindi

  // ------------------------------------------------------------- the words

  const ONES := [
    "", "One", "Two", "Three", "Four", "Five", "Six", "Seven", "Eight", "Nine",
    "Ten", "Eleven", "Twelve", "Thirteen", "Fourteen", "Fifteen", "Sixteen",
    "Seventeen", "Eighteen", "Nineteen"]

  const TENS := ["", "", "Twenty", "Thirty", "Forty", "Fifty", "Sixty", "Seventy", "Eighty", "Ninety"]

  const MULTIPLIERS := ["Hundred", "Thousand", "Lakh", "Crore"]

  /** The hundred Hindi numerals in rows of ten, then the four multipliers. */
  function HindiRow(tens: nat): (row: seq<string>)
    requires tens <= 10
    ensures |row| == if tens == 10 then 4 else 10
  {
    match tens
    case 0 => ["शून्य", "एक", "दो", "तीन", "चार", "पांच", "छह", "सात", "आठ", "नौ"]
    case 1 => ["दस", "ग्यारह", "बारह", "तेरह", "चौदह", "पंद्रह", "सोलह", "सत्रह", "अठारह", "उन्नीस"]
    case 2 => ["बीस", "इक्कीस", "बाईस", "तेईस", "चौबीस", "पच्चीस", "छब्बीस", "सत्ताईस", "अट्ठाईस", "उनतीस"]
    case 3 => ["तीस", "इकतीस", "बत्तीस", "तैंतीस", "चौंतीस", "पैंतीस", "छत्तीस", "सैंतीस", "अड़तीस", "उनतालीस"]
    case 4 => ["चालीस", "इकतालीस", "बयालीस", "तैंतालीस", "चौंतालीस", "पैंतालीस", "छियालीस", "सैंतालीस", "अड़तालीस", "उनचास"]
    case 5 => ["पचास", "इक्यावन", "बावन", "तिरेपन", "चौवन", "पचपन", "छप्पन", "सत्तावन", "अट्ठावन", "उनसठ"]
    case 6 => ["साठ", "इकसठ", "बासठ", "तिरेसठ", "चौंसठ", "पैंसठ", "छियासठ", "सड़सठ", "अड़सठ", "उनहत्तर"]
    case 7 => ["सत्तर", "इकहत्तर", "बहत्तर", "तिहत्तर", "चौहत्तर", "पचहत्तर", "छिहत्तर", "सतहत्तर", "अठहत्तर", "उनासी"]
    case 8 => ["अस्सी", "इक्यासी", "बयासी", "तिरासी", "चौरासी", "पचासी", "छियासी", "सत्तासी", "अट्ठासी", "नवासी"]
    case 9 => ["नब्बे", "इक्यानवे", "बानवे", "तिरानवे", "चौरानवे", "पंचानवे", "छियानवे", "सत्तानवे", "अट्ठानवे", "निन्यानवे"]
    case _ => ["सौ", "हज़ार", "लाख", "करोड़"]
  }

  /** Codes above 99 stand for the multipliers; the others for themselves. */
  const HUNDRED := 100
  const THOUSAND := 101
  const LAKH := 102
  const CRORE := 103

  predicate HasWord(language: Language, code: nat) {
    match language
    case English => 0 < code < 20 || (20 <= code < 100 && code % 10 == 0) || 100 <= code <= 103
    case Hindi => code <= 103
  }

  function Word(language: Language, code: nat): string
    requires HasWord(language, code)
  {
    match language
    case English =>
      if code < 20 then ONES[code] else if code < 100 then TENS[code / 10] else MULTIPLIERS[code - 100]
    case Hindi => HindiRow(code / 10)[code % 10]
  }

  // ------------------------------------------------- recognising a word

  predicate SpaceFree(word: string) { forall i :: 0 <= i < |word| ==> word[i] != ' ' }

  /** Tells the words of a language apart: no two of them share a fingerprint. */
  function Fingerprint(word: string): int
    requires word != ""
  {
    3 * |word| + 4 * word[0] as int + 10 * word[|word| / 2] as int + 4 * word[|word| - 1] as int
  }

  /** The code a fingerprint stands for, if it stands for any. */
  function EnglishLexicon(fingerprint: int): nat {
    if fingerprint < 1847 then match fingerprint {
      case 1709 => 100 case 1785 => 8 case 1795 => 10 case 1797 => 103 case 1799 => 50 case 1802 => 102
      case 1818 => 80 case 1824 => 90 case 1828 => 9 case 1829 => 1 case 1838 => 12
      case _ => 0
    } else
    if fingerprint < 1919 then match fingerprint {
      case 1847 => 70 case 1871 => 6 case 1876 => 5 case 1895 => 3 case 1899 => 17 case 1900 => 18
      case 1901 => 15 case 1904 => 14 case 1910 => 101 case 1914 => 11 case 1918 => 4
      case _ => 0
    } else
    match fingerprint {
      case 1919 => 40 case 1936 => 19 case 1938 => 20 case 1953 => 16 case 1960 => 13 case 1967 => 7
      case 1978 => 30 case 1979 => 2 case 2031 => 60
      case _ => 0
    }
  }

  function HindiLexicon(fingerprint: int): nat {
    if fingerprint < 42073 then match fingerprint {
      case 41739 => 64 case 41776 => 5 case 41803 => 65 case 41832 => 1 case 41932 => 23 case 41950 => 8
      case 41952 => 21 case 41964 => 22 case 41993 => 58 case 42007 => 49 case 42057 => 28 case 42065 => 78
      case _ => 0
    } else
    if fingerprint < 42182 then match fingerprint {
      case 42073 => 71 case 42081 => 69 case 42089 => 88 case 42094 => 38 case 42099 => 31 case 42107 => 29
      case 42142 => 25 case 42149 => 74 case 42150 => 19 case 42151 => 51 case 42153 => 76 case 42178 => 34
      case _ => 0
    } else
    if fingerprint < 42250 then match fingerprint {
      case 42182 => 36 case 42189 => 73 case 42196 => 14 case 42200 => 61 case 42208 => 59 case 42213 => 75
      case 42218 => 33 case 42232 => 55 case 42235 => 68 case 42237 => 57 case 42242 => 35 case 42247 => 81
      case _ => 0
    } else
    if fingerprint < 42347 then match fingerprint {
      case 42250 => 32 case 42255 => 24 case 42262 => 26 case 42269 => 77 case 42278 => 54 case 42291 => 0
      case 42298 => 37 case 42301 => 27 case 42315 => 40 case 42333 => 87 case 42336 => 13 case 42346 => 66
      case _ => 0
    } else
    if fingerprint < 42399 then match fingerprint {
      case 42347 => 92 case 42348 => 62 case 42350 => 52 case 42355 => 18 case 42360 => 48 case 42365 => 41
      case 42368 => 12 case 42373 => 39 case 42384 => 6 case 42389 => 102 case 42390 => 42 case 42397 => 4
      case _ => 0
    } else
    if fingerprint < 42469 then match fingerprint {
      case 42399 => 79 case 42413 => 99 case 42414 => 10 case 42420 => 98 case 42425 => 3 case 42428 => 91
      case 42430 => 11 case 42436 => 16 case 42439 => 67 case 42444 => 44 case 42445 => 46 case 42453 => 60
      case _ => 0
    } else
    if fingerprint < 42510 then match fingerprint {
      case 42469 => 7 case 42470 => 84 case 42472 => 63 case 42474 => 86 case 42484 => 43 case 42489 => 30
      case 42496 => 50 case 42501 => 94 case 42504 => 53 case 42505 => 96 case 42507 => 101 case 42508 => 45
      case _ => 0
    } else
    if fingerprint < 42628 then match fingerprint {
      case 42510 => 83 case 42521 => 20 case 42523 => 89 case 42525 => 56 case 42531 => 85 case 42533 => 80
      case 42539 => 82 case 42541 => 93 case 42561 => 103 case 42564 => 47 case 42565 => 95 case 42624 => 97
      case _ => 0
    } else
    match fingerprint {
      case 42628 => 72 case 42656 => 15 case 42673 => 70 case 42680 => 2 case 42701 => 90 case 42702 => 9
      case 42709 => 17 case 42766 => 100
      case _ => 0
    }
  }

  function Lookup(language: Language, fingerprint: int): nat {
    if language == English then EnglishLexicon(fingerprint) else HindiLexicon(fingerprint)
  }

  /** The code whose word this is, if there is one. */
  function Hear(language: Language, word: string): (code: Option<nat>)
    ensures code.Some? ==> HasWord(language, code.value) && Word(language, code.value) == word
  {
    if word == "" then None
    else
      var code := Lookup(language, Fingerprint(word));
      if HasWord(language, code) && Word(language, code) == word then Some(code) else None
  }

  // ----------------------------------------- every word is heard for itself

  /** A word as the listener needs it. */
  predicate Printed(word: string, fingerprint: int) {
    word != "" && Fingerprint(word) == fingerprint
  }

  function HindiPrints(tens: nat): (row: seq<int>)
    requires tens <= 10
    ensures |row| == if tens == 10 then 4 else 10
  {
    match tens
    case 0 => [42291, 41832, 42680, 42425, 42397, 41776, 42384, 42469, 41950, 42702]
    case 1 => [42414, 42430, 42368, 42336, 42196, 42656, 42436, 42709, 42355, 42150]
    case 2 => [42521, 41952, 41964, 41932, 42255, 42142, 42262, 42301, 42057, 42107]
    case 3 => [42489, 42099, 42250, 42218, 42178, 42242, 42182, 42298, 42094, 42373]
    case 4 => [42315, 42365, 42390, 42484, 42444, 42508, 42445, 42564, 42360, 42007]
    case 5 => [42496, 42151, 42350, 42504, 42278, 42232, 42525, 42237, 41993, 42208]
    case 6 => [42453, 42200, 42348, 42472, 41739, 41803, 42346, 42439, 42235, 42081]
    case 7 => [42673, 42073, 42628, 42189, 42149, 42213, 42153, 42269, 42065, 42399]
    case 8 => [42533, 42247, 42539, 42510, 42470, 42531, 42474, 42333, 42089, 42523]
    case 9 => [42701, 42428, 42347, 42541, 42501, 42565, 42505, 42624, 42420, 42413]
    case _ => [42766, 42507, 42389, 42561]
  }

  lemma Printed0(u: nat)
    requires u < 10
    ensures Printed(HindiRow(0)[u], HindiPrints(0)[u])
  {}

  lemma Printed1(u: nat)
    requires u < 10
    ensures Printed(HindiRow(1)[u], HindiPrints(1)[u])
  {}

  lemma Printed2(u: nat)
    requires u < 10
    ensures Printed(HindiRow(2)[u], HindiPrints(2)[u])
  {}

  lemma Printed3(u: nat)
    requires u < 10
    ensures Printed(HindiRow(3)[u], HindiPrints(3)[u])
  {}

  lemma Printed4(u: nat)
    requires u < 10
    ensures Printed(HindiRow(4)[u], HindiPrints(4)[u])
  {}

  lemma Printed5(u: nat)
    requires u < 10
    ensures Printed(HindiRow(5)[u], HindiPrints(5)[u])
  {}

  lemma Printed6(u: nat)
    requires u < 10
    ensures Printed(HindiRow(6)[u], HindiPrints(6)[u])
  {}

  lemma Printed7(u: nat)
    requires u < 10
    ensures Printed(HindiRow(7)[u], HindiPrints(7)[u])
  {}

  lemma Printed8(u: nat)
    requires u < 10
    ensures Printed(HindiRow(8)[u], HindiPrints(8)[u])
  {}

  lemma Printed9(u: nat)
    requires u < 10
    ensures Printed(HindiRow(9)[u], HindiPrints(9)[u])
  {}

  lemma Printed10(u: nat)
    requires u < 4
    ensures Printed(HindiRow(10)[u], HindiPrints(10)[u])
  {}

  lemma Coded0(u: nat)
    requires u < 10
    ensures HindiLexicon(HindiPrints(0)[u]) == u && SpaceFree(HindiRow(0)[u])
  {}

  lemma Coded1(u: nat)
    requires u < 10
    ensures HindiLexicon(HindiPrints(1)[u]) == 10 + u && SpaceFree(HindiRow(1)[u])
  {}

  lemma Coded2(u: nat)
    requires u < 10
    ensures HindiLexicon(HindiPrints(2)[u]) == 20 + u && SpaceFree(HindiRow(2)[u])
  {}

  lemma Coded3(u: nat)
    requires u < 10
    ensures HindiLexicon(HindiPrints(3)[u]) == 30 + u && SpaceFree(HindiRow(3)[u])
  {}

  lemma Coded4(u: nat)
    requires u < 10
    ensures HindiLexicon(HindiPrints(4)[u]) == 40 + u && SpaceFree(HindiRow(4)[u])
  {}

  lemma Coded5(u: nat)
    requires u < 10
    ensures HindiLexicon(HindiPrints(5)[u]) == 50 + u && SpaceFree(HindiRow(5)[u])
  {}

  lemma Coded6(u: nat)
    requires u < 10
    ensures HindiLexicon(HindiPrints(6)[u]) == 60 + u && SpaceFree(HindiRow(6)[u])
  {}

  lemma Coded7(u: nat)
    requires u < 10
    ensures HindiLexicon(HindiPrints(7)[u]) == 70 + u && SpaceFree(HindiRow(7)[u])
  {}

  lemma Coded8(u: nat)
    requires u < 10
    ensures HindiLexicon(HindiPrints(8)[u]) == 80 + u && SpaceFree(HindiRow(8)[u])
  {}

  lemma Coded9(u: nat)
    requires u < 10
    ensures HindiLexicon(HindiPrints(9)[u]) == 90 + u && SpaceFree(HindiRow(9)[u])
  {}

  lemma Coded10(u: nat)
    requires u < 4
    ensures HindiLexicon(HindiPrints(10)[u]) == 100 + u && SpaceFree(HindiRow(10)[u])
  {}

  /** The listener knows the word of a code for that code. */
  predicate Heard(language: Language, code: nat)
    requires HasWord(language, code)
  {
    Hear(language, Word(language, code)) == Some(code) && SpaceFree(Word(language, code))
  }

  lemma HearsByItsPrint(language: Language, code: nat, fingerprint: int)
    requires HasWord(language, code) && Printed(Word(language, code), fingerprint)
    requires Lookup(language, fingerprint) == code && SpaceFree(Word(language, code))
    ensures Heard(language, code)
  {}

  lemma HearsHindi(code: nat)
    requires code <= 103
    ensures Heard(Hindi, code)
  {
    var tens, u := code / 10, code % 10;
    match tens {
      case 0 => Printed0(u); Coded0(u);
      case 1 => Printed1(u); Coded1(u);
      case 2 => Printed2(u); Coded2(u);
      case 3 => Printed3(u); Coded3(u);
      case 4 => Printed4(u); Coded4(u);
      case 5 => Printed5(u); Coded5(u);
      case 6 => Printed6(u); Coded6(u);
      case 7 => Printed7(u); Coded7(u);
      case 8 => Printed8(u); Coded8(u);
      case 9 => Printed9(u); Coded9(u);
      case _ => Printed10(u); Coded10(u);
    }
    HearsByItsPrint(Hindi, code, HindiPrints(tens)[u]);
  }

  /** An English word, its fingerprint and its code. */
  predicate Known(word: string, fingerprint: int, code: nat) {
    Printed(word, fingerprint) && ' ' !in word && EnglishLexicon(fingerprint) == code
  }

  lemma HearsOnes(code: nat)
    requires HasWord(English, code) && code < 10
    ensures Heard(English, code)
  {
    assert Known(ONES[1], 1829, 1);
    assert Known(ONES[2], 1979, 2);
    assert Known(ONES[3], 1895, 3);
    assert Known(ONES[4], 1918, 4);
    assert Known(ONES[5], 1876, 5);
    assert Known(ONES[6], 1871, 6);
    assert Known(ONES[7], 1967, 7);
    assert Known(ONES[8], 1785, 8);
    assert Known(ONES[9], 1828, 9);
  }

  lemma HearsTeens(code: nat)
    requires HasWord(English, code) && 10 <= code < 20
    ensures Heard(English, code)
  {
    assert Known(ONES[10], 1795, 10);
    assert Known(ONES[11], 1914, 11);
    assert Known(ONES[12], 1838, 12);
    assert Known(ONES[13], 1960, 13);
    assert Known(ONES[14], 1904, 14);
    assert Known(ONES[15], 1901, 15);
    assert Known(ONES[16], 1953, 16);
    assert Known(ONES[17], 1899, 17);
    assert Known(ONES[18], 1900, 18);
    assert Known(ONES[19], 1936, 19);
  }

  lemma HearsTens(code: nat)
    requires HasWord(English, code) && 20 <= code < 100
    ensures Heard(English, code)
  {
    assert Known(TENS[2], 1938, 20);
    assert Known(TENS[3], 1978, 30);
    assert Known(TENS[4], 1919, 40);
    assert Known(TENS[5], 1799, 50);
    assert Known(TENS[6], 2031, 60);
    assert Known(TENS[7], 1847, 70);
    assert Known(TENS[8], 1818, 80);
    assert Known(TENS[9], 1824, 90);
  }

  lemma HearsMultipliers(code: nat)
    requires HasWord(English, code) && 100 <= code
    ensures Heard(English, code)
  {
    assert Known(MULTIPLIERS[0], 1709, 100);
    assert Known(MULTIPLIERS[1], 1910, 101);
    assert Known(MULTIPLIERS[2], 1802, 102);
    assert Known(MULTIPLIERS[3], 1797, 103);
  }

  lemma HearsEnglish(code: nat)
    requires HasWord(English, code)
    ensures Heard(English, code)
  {
    if code < 10 {
      HearsOnes(code);
    } else if code < 20 {
      HearsTeens(code);
    } else if code < 100 {
      HearsTens(code);
    } else {
      HearsMultipliers(code);
    }
  }

  lemma HearsEveryWord(language: Language, code: nat)
    requires HasWord(language, code)
    ensures Heard(language, code)
  {
    match language
    case English => HearsEnglish(code);
    case Hindi => HearsHindi(code);
  }
}
