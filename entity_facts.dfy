/** What engines/entityExtractor.py promises about the entities it returns:
    the shape of loan numbers and phone numbers, the order of dates, the
    de-duplication of amounts, and nothing found in an empty text. */
module EntityFacts {
  import opened Text
  import opened Records
  import opened Scan
  import opened EntityPatterns
  import opened EntityExtractor
  import opened AmountFacts

  /** `LN-` in any case followed by four to fifteen digits. */
  predicate IsLoanTag(t: string) {
    7 <= |t| <= 18 && Lower(t[..3]) == "ln-" && AllDigits(t[3..])
  }

  /** The digit group of a loan phrase: four to twenty digits, leading zeros kept. */
  predicate IsLoanDigits(t: string) {
    4 <= |t| <= 20 && AllDigits(t)
  }

  // ---------------------------------------------------------------------
  // Loan numbers (lines 140-160)


  lemma LoanTagHit(s: string, p: nat, h: Hit)
    requires LoanTagAt(s, p) == Some(h)
    ensures IsLoanTag(s[h.groupStart..h.end])
  {
    assert h.end in LoanTagEnds(s, p);
    var f := (k: nat) => DigitRun(s, k, 4, 15);
    assert h.end in Then(s, Lit(s, p, "ln-"), f);
    var k := ThenWitness(s, Lit(s, p, "ln-"), f, h.end);
    assert k == p + 3 && Lower(s[p..k]) == "ln-";
    DigitRunSlice(s, k, 4, 15, h.end);
    var t := s[p..h.end];
    assert t[..3] == s[p..k];
    assert t[3..] == s[k..h.end];
  }

  /** A tag hit is the whole match `LN-` plus four to fifteen digits. */
  lemma LoanTagShape(s: string, t: string)
    requires t in Matches(LoanTag, s)
    ensures IsLoanTag(t)
  {
    var h := MatchesSound(LoanTag, s, t);
    MatchAtLoanTag(s, h.start);
    LoanTagHit(s, h.start, h);
  }

  lemma LoanPhraseHit(s: string, p: nat, h: Hit)
    requires LoanPhraseAt(s, p) == Some(h)
    ensures IsLoanDigits(s[h.groupStart..h.end])
  {
    LoanDigitsEnd(s, h.groupStart, h.end);
  }

  lemma LoanDigitsEnd(s: string, k: nat, e: nat)
    requires e in LoanDigits(s, k)
    ensures IsLoanDigits(s[k..e])
  {
    assert e in DigitRun(s, k, 4, 20);
    DigitRunSlice(s, k, 4, 20, e);
  }

  /** A phrase hit is only its digit group: four to twenty digits. */
  lemma LoanPhraseShape(s: string, t: string)
    requires t in Matches(LoanPhrase, s)
    ensures IsLoanDigits(t)
  {
    var h := MatchesSound(LoanPhrase, s, t);
    MatchAtLoanPhrase(s, h.start);
    LoanPhraseHit(s, h.start, h);
  }

  lemma FlatMapPair<A, B>(a: A, b: A, f: A -> seq<B>)
    ensures FlatMap([a, b], f) == f(a) + f(b)
  {
    assert [a, b][..1] == [a];
    assert [a][..0] == [];
    assert FlatMap([a], f) == f(a);
  }

  lemma LoanHits(text: string)
    ensures AllMatches(LoanPatterns, text) == Matches(LoanTag, text) + Matches(LoanPhrase, text)
  {
    FlatMapPair(LoanTag, LoanPhrase, PatternMatches(text));
    PatternMatchesOf(text, LoanTag);
    PatternMatchesOf(text, LoanPhrase);
  }

  /** Every loan number is a tag or a four-to-twenty digit group (so three
      digits are never one), and none is reported twice. */
  lemma LoanNumbersShape(text: string)
    ensures forall n | n in LoanNumbers(text) :: IsLoanTag(n) || IsLoanDigits(n)
    ensures Distinct(LoanNumbers(text))
  {
    LoanHits(text);
    forall n | n in LoanNumbers(text) ensures IsLoanTag(n) || IsLoanDigits(n) {
      if n in Matches(LoanTag, text) {
        LoanTagShape(text, n);
      } else {
        LoanPhraseShape(text, n);
      }
    }
    UniqueIsFirstOccurrences(AllMatches(LoanPatterns, text));
  }

  // ---------------------------------------------------------------------
  // Dates (lines 107-118)

  /** The dates are the six patterns' matches, concatenated in list order. */
  lemma DatesInPatternOrder(text: string)
    ensures Dates(text) ==
      Matches(DateNumeric, text) + Matches(DateIso, text) + Matches(DateMonthDayYear, text) +
      Matches(DateDayMonthYear, text) + Matches(DateDayMonth, text) + Matches(DateMonthDay, text)
  {
    var f := PatternMatches(text);
    FlatMapSix(DateNumeric, DateIso, DateMonthDayYear, DateDayMonthYear, DateDayMonth, DateMonthDay, f);
    PatternMatchesOf(text, DateNumeric);
    PatternMatchesOf(text, DateIso);
    PatternMatchesOf(text, DateMonthDayYear);
    PatternMatchesOf(text, DateDayMonthYear);
    PatternMatchesOf(text, DateDayMonth);
    PatternMatchesOf(text, DateMonthDay);
  }

  lemma FlatMapSix<A, B>(a: A, b: A, c: A, d: A, e: A, g: A, f: A -> seq<B>)
    ensures FlatMap([a, b, c, d, e, g], f) == f(a) + f(b) + f(c) + f(d) + f(e) + f(g)
  {
    var xs := [a, b, c, d, e, g];
    assert xs[..0] == [];
    FlatMapStep(xs, f, 0);
    FlatMapStep(xs, f, 1);
    FlatMapStep(xs, f, 2);
    FlatMapStep(xs, f, 3);
    FlatMapStep(xs, f, 4);
    FlatMapStep(xs, f, 5);
    assert xs[..6] == xs;
  }

  // ---------------------------------------------------------------------
  // Phones (lines 121-129)

  lemma PhoneHit(s: string, p: nat, h: Hit)
    requires PhoneAt(s, p) == Some(h)
    ensures h.groupStart + 10 <= h.end <= |s| && AllDigits(s[h.end - 4..h.end])
  {
    var ends := PhoneEnds(s, p);
    assert h.end == ends[0];
    PhoneEndShape(s, p, h.end);
  }

  /** Every end of the phone pattern lies ten digits or more past its start. */
  lemma PhoneEndShape(s: string, p: nat, e: nat)
    requires e in PhoneEnds(s, p)
    ensures p + 10 <= e <= |s| && AllDigits(s[e - 4..e])
  {
    var f := (k: nat) => Then(s, AreaCode(s, k), (k2: nat) => Subscriber(s, k2));
    assert e in Then(s, CountryCode(s, p), f);
    var k := ThenWitness(s, CountryCode(s, p), f, e);
    var k2 := ThenWitness(s, AreaCode(s, k), (k2: nat) => Subscriber(s, k2), e);
    AreaCodeLength(s, k, k2);
    SubscriberLength(s, k2, e);
  }

  /** A phone hit spans at least the ten digits of a North American number
      and ends in the four digits of the subscriber number. */
  lemma PhoneShape(s: string, t: string)
    requires t in Matches(Phone, s)
    ensures |t| >= 10 && AllDigits(t[|t| - 4..])
  {
    var h := MatchesSound(Phone, s, t);
    PhoneMatch(s, h.start, h);
    DigitsTail(s, h.groupStart, h.end, t);
  }

  lemma PhoneMatch(s: string, p: nat, h: Hit)
    requires MatchAt(Phone, s, p) == Some(h)
    ensures h.groupStart + 10 <= h.end <= |s| && AllDigits(s[h.end - 4..h.end])
  {
    MatchAtPhone(s, p);
    PhoneHit(s, p, h);
  }

  /** The last four characters of `s[a..b]` are those of `s[b - 4..b]`. */
  lemma DigitsTail(s: string, a: nat, b: nat, t: string)
    requires a + 4 <= b <= |s| && AllDigits(s[b - 4..b]) && t == s[a..b]
    ensures |t| == b - a && AllDigits(t[|t| - 4..])
  {
    var u := t[|t| - 4..];
    forall i | 0 <= i < |u| ensures IsDigit(u[i]) {
      assert u[i] == s[b - 4..b][i];
    }
  }

  lemma AreaCodeLength(s: string, k: nat, k2: nat)
    requires k2 in AreaCode(s, k)
    ensures k + 3 <= k2
  {
    var k1 := ThenWitness(s, Opt(s, Lit(s, k, "("), k), (k: nat) => AreaDigits(s, k), k2);
    assert k <= k1;
    var f := (k: nat) => Then(s, Opt(s, Lit(s, k, ")"), k), (k2: nat) => OptPhoneSep(s, k2));
    var k3 := ThenWitness(s, DigitRun(s, k1, 3, 3), f, k2);
    assert k1 + 3 <= k3;
    var k4 := ThenWitness(s, Opt(s, Lit(s, k3, ")"), k3), (k2: nat) => OptPhoneSep(s, k2), k2);
    assert k3 <= k4 && k4 <= k2;
  }

  lemma SubscriberLength(s: string, k2: nat, e: nat)
    requires e in Subscriber(s, k2)
    ensures k2 + 7 <= e && AllDigits(s[e - 4..e])
  {
    var f := (k: nat) => Then(s, OptPhoneSep(s, k), (k2: nat) => DigitRun(s, k2, 4, 4));
    var k3 := ThenWitness(s, DigitRun(s, k2, 3, 3), f, e);
    assert k2 + 3 <= k3;
    SubscriberTail(s, k3, e);
  }

  /** `[\s.-]?\d{4}` ends in four digits. */
  lemma SubscriberTail(s: string, k3: nat, e: nat)
    requires e in Then(s, OptPhoneSep(s, k3), (k2: nat) => DigitRun(s, k2, 4, 4))
    ensures k3 + 4 <= e && AllDigits(s[e - 4..e])
  {
    var k4 := ThenWitness(s, OptPhoneSep(s, k3), (k2: nat) => DigitRun(s, k2, 4, 4), e);
    assert k3 <= k4;
    DigitRunSlice(s, k4, 4, 4, e);
  }

  // ---------------------------------------------------------------------
  // Amounts (lines 43-104)

  /** De-duplicating parsed values keeps the first occurrence of every value,
      and no two kept values are numerically equal. */
  lemma DedupParsed(hits: seq<string>)
    ensures Unique(Parsed(hits)) == FirstOccurrences(Parsed(hits))
    ensures forall a, b | 0 <= a < b < |Unique(Parsed(hits))| ::
      Unique(Parsed(hits))[a].Value() != Unique(Parsed(hits))[b].Value()
    ensures forall x | x in Unique(Parsed(hits)) :: exists hit | hit in hits :: NumberOf(hit) == Some(x)
  {
    var parsed := Parsed(hits);
    var u := Unique(parsed);
    UniqueIsFirstOccurrences(parsed);
    ParsedCanonical(hits);
    forall a, b | 0 <= a < b < |u| ensures u[a].Value() != u[b].Value() {
      assert u[a] in parsed && u[b] in parsed;
      var i :| 0 <= i < |parsed| && parsed[i] == u[a];
      var j :| 0 <= j < |parsed| && parsed[j] == u[b];
      if u[a].Value() == u[b].Value() {
        CanonicalAmountsEqual(u[a], u[b]);
        assert false;
      }
    }
    FilterMapValues(hits, NumberOf);
    forall x | x in u ensures exists hit | hit in hits :: NumberOf(hit) == Some(x) {
      var k :| 0 <= k < |parsed| && parsed[k] == x;
      var j :| 0 <= j < |hits| && NumberOf(hits[j]) == Some(parsed[k]);
      assert hits[j] in hits;
    }
  }

  /** No two amounts of a text are numerically equal ("USD 5,000" and
      "$5000" count once), the first occurrence of every value is the one
      kept, and each is the value of some money or mortgage-context hit. */
  lemma AmountsDeduplicated(text: string)
    ensures Amounts(text) == FirstOccurrences(Parsed(AmountHits(text)))
    ensures forall a, b | 0 <= a < b < |Amounts(text)| :: Amounts(text)[a].Value() != Amounts(text)[b].Value()
    ensures forall x | x in Amounts(text) :: exists hit | hit in AmountHits(text) :: NumberOf(hit) == Some(x)
  {
    DedupParsed(AmountHits(text));
  }

  /** Money hits come before mortgage-context hits, and only the latter are
      read in thousands when markerless. */
  lemma AmountHitValues(text: string, hit: string)
    requires hit in AmountHits(text)
    ensures hit in Matches(Money, text) ==> forall v: real :: Shorthand(hit, v) == v
    ensures hit in Matches(MortgageContext, text) ==> IsNumeral(hit)
    ensures hit in Matches(MortgageContext, text) ==>
      NumberOf(hit) == Some(AmountOf(InThousands(DecimalValue(RemoveAll(hit, ",")))))
  {
    if hit in Matches(Money, text) {
      MoneyHitHasMarker(text, hit);
    }
    if hit in Matches(MortgageContext, text) {
      ContextAmountInThousands(text, hit);
    }
  }

  // ---------------------------------------------------------------------
  // The empty text

  /** Every extractor returns nothing on "". */
  lemma NoEntitiesInEmptyText()
    ensures EntitiesOf("") == Entities([], [], [], [])
  {
    NoAmountsInEmptyText();
    NoDatesInEmptyText();
    NoMatchesInEmptyText(Phone);
    NoLoanNumbersInEmptyText();
  }

  lemma NoAmountsInEmptyText()
    ensures Amounts("") == []
  {
    NoMatchesInEmptyText(Money);
    NoMatchesInEmptyText(MortgageContext);
    assert AmountHits("") == [];
    assert Parsed([]) == [];
  }

  lemma NoDatesInEmptyText()
    ensures Dates("") == []
  {
    forall pat: Pattern ensures Matches(pat, "") == [] {
      NoMatchesInEmptyText(pat);
    }
    DatesInPatternOrder("");
  }

  lemma NoLoanNumbersInEmptyText()
    ensures LoanNumbers("") == []
  {
    NoMatchesInEmptyText(LoanTag);
    NoMatchesInEmptyText(LoanPhrase);
    LoanHits("");
  }
}
