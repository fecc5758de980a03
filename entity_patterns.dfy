/** The regular expressions of engines/entityExtractor.py, each written out as
    a recogniser over `Scan`'s pieces, and `finditer` over them. */
module EntityPatterns {
  import opened Text
  import opened Records
  import opened Scan

  /** The class `[\s.-]` of the phone pattern. */
  predicate IsPhoneSep(c: char) { IsSpace(c) || c == '.' || c == '-' }

  /** The class `[/-]` of the numeric date patterns. */
  predicate IsDateSep(c: char) { c == '/' || c == '-' }

  /** `[a-z]` under IGNORECASE: any ASCII letter. */
  predicate IsLetterChar(c: char) { IsLetter(c) }

  predicate IsDigitChar(c: char) { IsDigit(c) }

  predicate IsSpaceChar(c: char) { IsSpace(c) }

  /** `\b` after a piece: keeps the ends that sit on a word boundary. */
  function Bounded(s: string, ends: seq<nat>): (r: seq<nat>)
    ensures forall lo: nat :: Within(s, ends, lo) ==> Within(s, r, lo)
  {
    Keep(s, ends, (e: nat) => IsBoundary(s, e))
  }

  /** `\s*` */
  function Spaces(s: string, i: nat): (r: seq<nat>)
    ensures Within(s, r, i)
  {
    Many(s, i, IsSpaceChar, 0)
  }

  /** `\s+` */
  function Spaces1(s: string, i: nat): (r: seq<nat>)
    ensures Within(s, r, i + 1)
  {
    Many(s, i, IsSpaceChar, 1)
  }

  /** `\d{min,max}` */
  function DigitRun(s: string, i: nat, min: nat, max: nat): (r: seq<nat>)
    ensures Within(s, r, i + min)
    ensures forall e | e in r :: e <= |s| && e - i <= max && forall j :: i <= j < e ==> IsDigit(s[j])
  {
    Repeat(s, i, IsDigitChar, min, max)
  }

  // ---------------------------------------------------------------------
  // The number literal `(?:\d{1,3}(?:,\d{3})+|\d+)(?:\.\d+)?` of line 23

  /** `,\d{3}` at `i`. */
  predicate CommaGroupAt(s: string, i: nat) {
    i + 4 <= |s| && s[i] == ',' && IsDigit(s[i + 1]) && IsDigit(s[i + 2]) && IsDigit(s[i + 3])
  }

  /** `(?:,\d{3})*`, greedy: one more group before stopping. */
  function CommaGroups(s: string, i: nat): (r: seq<nat>)
    ensures Within(s, r, i)
    decreases |s| - i
  {
    Opt(s, if CommaGroupAt(s, i) then CommaGroups(s, i + 4) else [], i)
  }

  /** `(?:,\d{3})+` */
  function CommaPlus(s: string, i: nat): (r: seq<nat>)
    ensures Within(s, r, i + 4)
  {
    if CommaGroupAt(s, i) then CommaGroups(s, i + 4) else []
  }

  /** `\d{1,3}(?:,\d{3})+` */
  function GroupedInt(s: string, i: nat): (r: seq<nat>)
    ensures Within(s, r, i + 1)
  {
    Then(s, DigitRun(s, i, 1, 3), (k: nat) => CommaPlus(s, k))
  }

  /** `\d{1,3}(?:,\d{3})+|\d+` */
  function IntPart(s: string, i: nat): (r: seq<nat>)
    ensures Within(s, r, i + 1)
  {
    Alt(s, GroupedInt(s, i), DigitRun(s, i, 1, |s|))
  }

  /** `\.\d+` */
  function FractionPart(s: string, i: nat): (r: seq<nat>)
    ensures Within(s, r, i + 2)
  {
    if i < |s| && s[i] == '.' then DigitRun(s, i + 1, 1, |s|) else []
  }

  /** The number literal. */
  function Num(s: string, i: nat): (r: seq<nat>)
    ensures Within(s, r, i + 1)
  {
    Then(s, IntPart(s, i), (k: nat) => Opt(s, FractionPart(s, k), k))
  }

  // ---------------------------------------------------------------------
  // The money pattern of lines 23-36

  /** `(?:US|CA|C)?\$\s*` */
  function DollarPrefix(s: string, i: nat): (r: seq<nat>)
    ensures Within(s, r, i + 1)
  {
    Then(s, Opt(s, Lits(s, i, ["us", "ca", "c"]), i), (k: nat) =>
      Then(s, Lit(s, k, "$"), (k2: nat) => Spaces(s, k2)))
  }

  /** `(?:USD|CAD)\s*` */
  function CodePrefix(s: string, i: nat): (r: seq<nat>)
    ensures Within(s, r, i + 1)
  {
    Then(s, Lits(s, i, ["usd", "cad"]), (k: nat) => Spaces(s, k))
  }

  /** `(?:(?:US|CA|C)?\$\s*|(?:USD|CAD)\s*)` */
  function Prefix(s: string, i: nat): (r: seq<nat>)
    ensures Within(s, r, i + 1)
  {
    Alt(s, DollarPrefix(s, i), CodePrefix(s, i))
  }

  /** `USD|CAD|dollars?` */
  function CurrencyWord(s: string, i: nat): (r: seq<nat>)
    ensures Within(s, r, i)
  {
    Alt(s, Lits(s, i, ["usd", "cad"]), Then(s, Lit(s, i, "dollar"), (k: nat) => Opt(s, Lit(s, k, "s"), k)))
  }

  /** `(?:\s*(?:USD|CAD|dollars?))\b` */
  function Suffix(s: string, i: nat): (r: seq<nat>)
    ensures Within(s, r, i)
  {
    Bounded(s, Then(s, Spaces(s, i), (k: nat) => CurrencyWord(s, k)))
  }

  /** `k\b|m\b|b\b|bn\b|thousand\b|million\b|billion\b` */
  function MagWord(s: string, i: nat): (r: seq<nat>)
    ensures Within(s, r, i)
  {
    Bounded(s, Lits(s, i, ["k", "m", "b", "bn", "thousand", "million", "billion"]))
  }

  /** `(?:\s*(?:k\b|...|billion\b))` */
  function Mag(s: string, i: nat): (r: seq<nat>)
    ensures Within(s, r, i)
  {
    Then(s, Spaces(s, i), (k: nat) => MagWord(s, k))
  }

  /** `(?:{suffix})?` */
  function OptSuffix(s: string, i: nat): (r: seq<nat>)
    ensures Within(s, r, i)
  {
    Opt(s, Suffix(s, i), i)
  }

  /** `{num}(?:{mag})?(?:{suffix})?` */
  function NumOptMagOptSuffix(s: string, i: nat): (r: seq<nat>)
    ensures Within(s, r, i + 1)
  {
    Then(s, Num(s, i), (k: nat) => Then(s, Opt(s, Mag(s, k), k), (k2: nat) => OptSuffix(s, k2)))
  }

  /** First branch: `{prefix}{num}(?:{mag})?(?:{suffix})?` */
  function MoneyWithPrefix(s: string, p: nat): (r: seq<nat>)
    ensures Within(s, r, p + 1)
  {
    Then(s, Prefix(s, p), (k: nat) => NumOptMagOptSuffix(s, k))
  }

  /** Second branch: `{num}{mag}(?:{suffix})?` */
  function MoneyWithMag(s: string, p: nat): (r: seq<nat>)
    ensures Within(s, r, p + 1)
  {
    Then(s, Num(s, p), (k: nat) => Then(s, Mag(s, k), (k2: nat) => OptSuffix(s, k2)))
  }

  /** Third branch: `{num}{suffix}` */
  function MoneyWithSuffix(s: string, p: nat): (r: seq<nat>)
    ensures Within(s, r, p + 1)
  {
    Then(s, Num(s, p), (k: nat) => Suffix(s, k))
  }

  /** The three branches in order, closed by `(?!\w)`; the look-behind is checked by the caller. */
  function MoneyEnds(s: string, p: nat): (r: seq<nat>)
    ensures Within(s, r, p + 1)
  {
    Keep(s, Alt(s, Alt(s, MoneyWithPrefix(s, p), MoneyWithMag(s, p)), MoneyWithSuffix(s, p)),
      (e: nat) => NoWordAfter(s, e))
  }

  // ---------------------------------------------------------------------
  // The mortgage-context pattern of lines 40-41

  /** `\s+b` */
  function SpacedWord(s: string, i: nat, b: string): (r: seq<nat>)
    ensures Within(s, r, i)
  {
    Then(s, Spaces1(s, i), (k: nat) => Lit(s, k, b))
  }

  /** `a\s+b` */
  function TwoWords(s: string, i: nat, a: string, b: string): (r: seq<nat>)
    ensures Within(s, r, i)
  {
    Then(s, Lit(s, i, a), (k: nat) => SpacedWord(s, k, b))
  }

  /** `borrow(?:ing)?\s+amount` */
  function BorrowAmount(s: string, i: nat): (r: seq<nat>)
    ensures Within(s, r, i)
  {
    Then(s, Lit(s, i, "borrow"), (k: nat) =>
      Then(s, Opt(s, Lit(s, k, "ing"), k), (k2: nat) => SpacedWord(s, k2, "amount")))
  }

  /** The context keywords of line 40, in their order. */
  function Context(s: string, i: nat): (r: seq<nat>)
    ensures Within(s, r, i)
  {
    Alt(s, Alt(s, Alt(s, TwoWords(s, i, "mortgage", "amount"), TwoWords(s, i, "mortgage", "balance")),
                  Alt(s, TwoWords(s, i, "principal", "balance"), TwoWords(s, i, "loan", "amount"))),
           Alt(s, Alt(s, BorrowAmount(s, i), TwoWords(s, i, "purchase", "price")),
                  Alt(s, TwoWords(s, i, "home", "price"), Lit(s, i, "price"))))
  }

  /** `\s*(?:is|:)?\s*` */
  function Connective(s: string, i: nat): (r: seq<nat>)
    ensures Within(s, r, i)
  {
    Then(s, Spaces(s, i), (k: nat) => Then(s, Opt(s, Lits(s, k, ["is", ":"]), k), (k2: nat) => Spaces(s, k2)))
  }

  /** Where the captured number of the context pattern may start:
      after `{ctx}\b\s*(?:is|:)?\s*`. */
  function ContextNumberStarts(s: string, p: nat): (r: seq<nat>)
    ensures Within(s, r, p)
  {
    Then(s, Bounded(s, Context(s, p)), (k: nat) => Connective(s, k))
  }

  /** `({num})\b` */
  function BoundedNum(s: string, k: nat): (r: seq<nat>)
    ensures Within(s, r, k + 1)
  {
    Bounded(s, Num(s, k))
  }

  // ---------------------------------------------------------------------
  // The loan-number patterns of lines 141-142

  /** `LN-\d{4,15}\b` */
  function LoanTagEnds(s: string, p: nat): (r: seq<nat>)
    ensures Within(s, r, p + 1)
  {
    Bounded(s, Then(s, Lit(s, p, "ln-"), (k: nat) => DigitRun(s, k, 4, 15)))
  }

  /** `number|no\.?|#` */
  function NumberWord(s: string, i: nat): (r: seq<nat>)
    ensures Within(s, r, i)
  {
    Alt(s, Alt(s, Lit(s, i, "number"), Then(s, Lit(s, i, "no"), (k: nat) => Opt(s, Lit(s, k, "."), k))), Lit(s, i, "#"))
  }

  /** `\s*(?:is\s*)?` */
  function OptIs(s: string, i: nat): (r: seq<nat>)
    ensures Within(s, r, i)
  {
    Then(s, Spaces(s, i), (k: nat) => Opt(s, Then(s, Lit(s, k, "is"), (k2: nat) => Spaces(s, k2)), k))
  }

  /** Where the captured digits of the phrase pattern may start: after
      `(?:loan|account|reference|application|file)\s*(?:number|no\.?|#)\s*(?:is\s*)?`. */
  function LoanNumberStarts(s: string, p: nat): (r: seq<nat>)
    ensures Within(s, r, p)
  {
    Then(s, Lits(s, p, ["loan", "account", "reference", "application", "file"]), (k: nat) =>
      Then(s, Spaces(s, k), (k2: nat) => Then(s, NumberWord(s, k2), (k3: nat) => OptIs(s, k3))))
  }

  /** `(\d{4,20})\b` */
  function LoanDigits(s: string, k: nat): (r: seq<nat>)
    ensures Within(s, r, k + 1)
  {
    Bounded(s, DigitRun(s, k, 4, 20))
  }

  // ---------------------------------------------------------------------
  // The date patterns of lines 108-113

  /** The twelve month abbreviations, in the order of the pattern. */
  const MonthNames: seq<string> :=
    ["jan", "feb", "mar", "apr", "may", "jun", "jul", "aug", "sep", "oct", "nov", "dec"]

  /** `(?:Jan|Feb|...|Dec)[a-z]*\.?`; under IGNORECASE `[a-z]` takes upper case too. */
  function Month(s: string, i: nat): (r: seq<nat>)
    ensures Within(s, r, i + 1)
  {
    Then(s, MonthStem(s, i), (k: nat) => Opt(s, Lit(s, k, "."), k))
  }

  /** `(?:Jan|Feb|...|Dec)[a-z]*` */
  function MonthStem(s: string, i: nat): (r: seq<nat>)
    ensures Within(s, r, i + 1)
  {
    Then(s, MonthName(s, i), (k: nat) => Many(s, k, IsLetterChar, 0))
  }

  /** `Jan|Feb|...|Dec` */
  function MonthName(s: string, i: nat): (r: seq<nat>)
    ensures Within(s, r, i + 1)
  {
    assert forall k | 0 <= k < |MonthNames| :: |MonthNames[k]| == 3;
    Lits(s, i, MonthNames)
  }

  /** `\d{1,2}[/-]` */
  function DayAndSep(s: string, i: nat): (r: seq<nat>)
    ensures Within(s, r, i + 1)
  {
    Then(s, DigitRun(s, i, 1, 2), (k: nat) => Char(s, k, IsDateSep))
  }

  /** `(?:\d{1,2}[/-]){2}\d{2,4}\b` */
  function DateNumericEnds(s: string, p: nat): (r: seq<nat>)
    ensures Within(s, r, p + 1)
  {
    Then(s, DayAndSep(s, p), (k: nat) => Then(s, DayAndSep(s, k), (k2: nat) => Bounded(s, DigitRun(s, k2, 2, 4))))
  }

  /** `(?:\d{1,2}[/-]){2}\d{1,2}\b` */
  function MonthDayTail(s: string, i: nat): (r: seq<nat>)
    ensures Within(s, r, i)
  {
    Then(s, DayAndSep(s, i), (k: nat) => Then(s, DayAndSep(s, k), (k2: nat) => Bounded(s, DigitRun(s, k2, 1, 2))))
  }

  /** `\d{4}[/-](?:\d{1,2}[/-]){2}\d{1,2}\b` */
  function DateIsoEnds(s: string, p: nat): (r: seq<nat>)
    ensures Within(s, r, p + 1)
  {
    Then(s, DigitRun(s, p, 4, 4), (k: nat) => Then(s, Char(s, k, IsDateSep), (k2: nat) => MonthDayTail(s, k2)))
  }

  /** `,?\s+\d{4}\b` */
  function YearTail(s: string, i: nat): (r: seq<nat>)
    ensures Within(s, r, i)
  {
    Then(s, Opt(s, Lit(s, i, ","), i), (k: nat) =>
      Then(s, Spaces1(s, k), (k2: nat) => Bounded(s, DigitRun(s, k2, 4, 4))))
  }

  /** `Month\s+\d{1,2},?\s+\d{4}\b` */
  function DateMonthDayYearEnds(s: string, p: nat): (r: seq<nat>)
    ensures Within(s, r, p + 1)
  {
    Then(s, Month(s, p), (k: nat) => SpacedDayYear(s, k))
  }

  /** `\s+\d{1,2},?\s+\d{4}\b` */
  function SpacedDayYear(s: string, i: nat): (r: seq<nat>)
    ensures Within(s, r, i + 1)
  {
    Then(s, Spaces1(s, i), (k: nat) => DayYear(s, k))
  }

  /** `\d{1,2},?\s+\d{4}\b` */
  function DayYear(s: string, i: nat): (r: seq<nat>)
    ensures Within(s, r, i + 1)
  {
    Then(s, DigitRun(s, i, 1, 2), (k: nat) => YearTail(s, k))
  }

  /** `\d{1,2}\s+Month,?\s+\d{4}\b` */
  function DateDayMonthYearEnds(s: string, p: nat): (r: seq<nat>)
    ensures Within(s, r, p + 1)
  {
    Then(s, DigitRun(s, p, 1, 2), (k: nat) => Then(s, Spaces1(s, k), (k2: nat) => MonthYear(s, k2)))
  }

  /** `Month,?\s+\d{4}\b` */
  function MonthYear(s: string, i: nat): (r: seq<nat>)
    ensures Within(s, r, i + 1)
  {
    Then(s, Month(s, i), (k: nat) => YearTail(s, k))
  }

  /** `\d{1,2}[ ]Month\b` */
  function DateDayMonthEnds(s: string, p: nat): (r: seq<nat>)
    ensures Within(s, r, p + 1)
  {
    Then(s, DigitRun(s, p, 1, 2), (k: nat) => Then(s, Lit(s, k, " "), (k2: nat) => Bounded(s, Month(s, k2))))
  }

  /** `Month\s+\d{1,2}\b` */
  function DateMonthDayEnds(s: string, p: nat): (r: seq<nat>)
    ensures Within(s, r, p + 1)
  {
    Then(s, Month(s, p), (k: nat) => SpacedDay(s, k))
  }

  /** `\s+\d{1,2}\b` */
  function SpacedDay(s: string, i: nat): (r: seq<nat>)
    ensures Within(s, r, i + 1)
  {
    Then(s, Spaces1(s, i), (k: nat) => Bounded(s, DigitRun(s, k, 1, 2)))
  }

  // ---------------------------------------------------------------------
  // The phone pattern of lines 121-128. It is matched case-sensitively,
  // which changes nothing since it has no letters.

  /** `[\s.-]?` */
  function OptPhoneSep(s: string, i: nat): (r: seq<nat>)
    ensures Within(s, r, i)
  {
    Opt(s, Char(s, i, IsPhoneSep), i)
  }

  /** `(?:\+?1[\s.-]?)?` */
  function CountryCode(s: string, i: nat): (r: seq<nat>)
    ensures Within(s, r, i)
  {
    Opt(s, Then(s, Opt(s, Lit(s, i, "+"), i), (k: nat) => Then(s, Lit(s, k, "1"), (k2: nat) => OptPhoneSep(s, k2))), i)
  }

  /** `(?:\(?\d{3}\)?[\s.-]?)` */
  function AreaCode(s: string, i: nat): (r: seq<nat>)
    ensures Within(s, r, i + 1)
  {
    Then(s, Opt(s, Lit(s, i, "("), i), (k: nat) => AreaDigits(s, k))
  }

  /** `\d{3}\)?[\s.-]?` */
  function AreaDigits(s: string, i: nat): (r: seq<nat>)
    ensures Within(s, r, i + 1)
  {
    Then(s, DigitRun(s, i, 3, 3), (k: nat) => Then(s, Opt(s, Lit(s, k, ")"), k), (k2: nat) => OptPhoneSep(s, k2)))
  }

  /** `\d{3}[\s.-]?\d{4}` */
  function Subscriber(s: string, i: nat): (r: seq<nat>)
    ensures Within(s, r, i)
  {
    Then(s, DigitRun(s, i, 3, 3), (k: nat) => Then(s, OptPhoneSep(s, k), (k2: nat) => DigitRun(s, k2, 4, 4)))
  }

  /** The phone pattern after its look-behind, closed by `(?!\w)`. */
  function PhoneEnds(s: string, p: nat): (r: seq<nat>)
    ensures Within(s, r, p + 1)
  {
    Keep(s, Then(s, CountryCode(s, p), (k: nat) => Then(s, AreaCode(s, k), (k2: nat) => Subscriber(s, k2))),
      (e: nat) => NoWordAfter(s, e))
  }

  // ---------------------------------------------------------------------
  // Matching and `re.finditer`

  /** The patterns of engines/entityExtractor.py. */
  datatype Pattern =
    | Money              // line 28, group 1
    | MortgageContext    // line 41, group 1
    | LoanTag            // line 141, group 0
    | LoanPhrase         // line 142, group 1
    | DateNumeric        // line 108
    | DateIso            // line 109
    | DateMonthDayYear   // line 110
    | DateDayMonthYear   // line 111
    | DateDayMonth       // line 112
    | DateMonthDay       // line 113
    | Phone              // line 121

  /** A hit over the whole match at `p`, if the look-behind holds and some end is reached. */
  function WholeHit(s: string, p: nat, before: bool, ends: seq<nat>): (r: Option<Hit>)
    requires Within(s, ends, p + 1)
    ensures r.Some? ==> r.value.start == p == r.value.groupStart < r.value.end <= |s|
    ensures r.Some? <==> before && ends != []
    ensures r.Some? ==> r.value.end == ends[0]
  {
    if before && ends != [] then
      assert ends[0] in ends;
      assert p + 1 <= ends[0] <= |s|;
      Some(Hit(p, p, ends[0]))
    else None
  }

  /** A hit at `p` whose kept group is the capture `(\d...)`: the first group start, in
      backtracking order, from which the group and the rest of the pattern succeed. */
  function GroupHit(s: string, p: nat, before: bool, starts: seq<nat>, group: nat -> seq<nat>): (r: Option<Hit>)
    requires Within(s, starts, p)
    requires forall k | k in starts :: Within(s, group(k), k + 1)
    ensures r.Some? ==> r.value.start == p <= r.value.groupStart < r.value.end <= |s|
    ensures r.Some? ==> r.value.groupStart in starts && r.value.end in group(r.value.groupStart)
  {
    var first := FirstPair(starts, group);
    if before && first.Some? then
      var (k, e) := first.value;
      assert k in starts && e in group(k);
      assert Within(s, group(k), k + 1);
      assert k + 1 <= e <= |s|;
      Some(Hit(p, k, e))
    else None
  }

  function MoneyAt(s: string, p: nat): (r: Option<Hit>)
    ensures r.Some? ==> r.value.start == p == r.value.groupStart < r.value.end <= |s|
  {
    WholeHit(s, p, NoWordBefore(s, p), MoneyEnds(s, p))
  }

  function MortgageContextAt(s: string, p: nat): (r: Option<Hit>)
    ensures r.Some? ==> r.value.start == p <= r.value.groupStart < r.value.end <= |s|
    ensures r.Some? ==> r.value.end in BoundedNum(s, r.value.groupStart)
  {
    GroupHit(s, p, IsBoundary(s, p), ContextNumberStarts(s, p), (k: nat) => BoundedNum(s, k))
  }

  function LoanTagAt(s: string, p: nat): (r: Option<Hit>)
    ensures r.Some? ==> r.value.start == p == r.value.groupStart < r.value.end <= |s|
  {
    WholeHit(s, p, IsBoundary(s, p), LoanTagEnds(s, p))
  }

  function LoanPhraseAt(s: string, p: nat): (r: Option<Hit>)
    ensures r.Some? ==> r.value.start == p <= r.value.groupStart < r.value.end <= |s|
    ensures r.Some? ==> r.value.end in LoanDigits(s, r.value.groupStart)
  {
    GroupHit(s, p, IsBoundary(s, p), LoanNumberStarts(s, p), (k: nat) => LoanDigits(s, k))
  }

  function DateAt(pat: Pattern, s: string, p: nat): (r: Option<Hit>)
    requires pat.DateNumeric? || pat.DateIso? || pat.DateMonthDayYear? || pat.DateDayMonthYear? ||
             pat.DateDayMonth? || pat.DateMonthDay?
    ensures r.Some? ==> r.value.start == p == r.value.groupStart < r.value.end <= |s|
  {
    var ends :=
      match pat
      case DateNumeric => DateNumericEnds(s, p)
      case DateIso => DateIsoEnds(s, p)
      case DateMonthDayYear => DateMonthDayYearEnds(s, p)
      case DateDayMonthYear => DateDayMonthYearEnds(s, p)
      case DateDayMonth => DateDayMonthEnds(s, p)
      case DateMonthDay => DateMonthDayEnds(s, p);
    WholeHit(s, p, IsBoundary(s, p), ends)
  }

  function PhoneAt(s: string, p: nat): (r: Option<Hit>)
    ensures r.Some? ==> r.value.start == p == r.value.groupStart < r.value.end <= |s|
  {
    WholeHit(s, p, NoWordBefore(s, p), PhoneEnds(s, p))
  }

  /** The recogniser of each pattern, as a function value: choosing one does
      not apply the others. */
  function Recogniser(pat: Pattern): (string, nat) -> Option<Hit> {
    match pat
    case Money => MoneyAt
    case MortgageContext => MortgageContextAt
    case LoanTag => LoanTagAt
    case LoanPhrase => LoanPhraseAt
    case Phone => PhoneAt
    case DateNumeric => (s: string, p: nat) => DateAt(DateNumeric, s, p)
    case DateIso => (s: string, p: nat) => DateAt(DateIso, s, p)
    case DateMonthDayYear => (s: string, p: nat) => DateAt(DateMonthDayYear, s, p)
    case DateDayMonthYear => (s: string, p: nat) => DateAt(DateDayMonthYear, s, p)
    case DateDayMonth => (s: string, p: nat) => DateAt(DateDayMonth, s, p)
    case DateMonthDay => (s: string, p: nat) => DateAt(DateMonthDay, s, p)
  }

  /** Every recogniser reports a match that starts where it was asked to and
      keeps a non-empty group inside the text. */
  lemma RecogniserSound(pat: Pattern, s: string, p: nat)
    ensures Recogniser(pat)(s, p).Some? ==>
      Recogniser(pat)(s, p).value.start == p <= Recogniser(pat)(s, p).value.groupStart <
      Recogniser(pat)(s, p).value.end <= |s|
  {
    match pat
    case Money => assert Recogniser(pat) == MoneyAt;
    case MortgageContext => assert Recogniser(pat) == MortgageContextAt;
    case LoanTag => assert Recogniser(pat) == LoanTagAt;
    case LoanPhrase => assert Recogniser(pat) == LoanPhraseAt;
    case Phone => assert Recogniser(pat) == PhoneAt;
    case _ => DateRecogniserSound(pat, s, p);
  }

  lemma DateRecogniserSound(pat: Pattern, s: string, p: nat)
    requires pat.DateNumeric? || pat.DateIso? || pat.DateMonthDayYear? || pat.DateDayMonthYear? ||
             pat.DateDayMonth? || pat.DateMonthDay?
    ensures Recogniser(pat)(s, p) == DateAt(pat, s, p)
  {
  }

  /** The pattern's match starting exactly at `p`, as `re` reports it, if any. */
  function MatchAt(pat: Pattern, s: string, p: nat): (r: Option<Hit>)
    ensures r.Some? ==> r.value.start == p <= r.value.groupStart < r.value.end <= |s|
  {
    RecogniserSound(pat, s, p);
    Recogniser(pat)(s, p)
  }

  lemma MatchAtMoney(s: string, p: nat)
    ensures MatchAt(Money, s, p) == MoneyAt(s, p)
  {
    assert Recogniser(Money) == MoneyAt;
  }

  lemma MatchAtMortgageContext(s: string, p: nat)
    ensures MatchAt(MortgageContext, s, p) == MortgageContextAt(s, p)
  {
    assert Recogniser(MortgageContext) == MortgageContextAt;
  }

  lemma MatchAtLoanTag(s: string, p: nat)
    ensures MatchAt(LoanTag, s, p) == LoanTagAt(s, p)
  {
    assert Recogniser(LoanTag) == LoanTagAt;
  }

  lemma MatchAtLoanPhrase(s: string, p: nat)
    ensures MatchAt(LoanPhrase, s, p) == LoanPhraseAt(s, p)
  {
    assert Recogniser(LoanPhrase) == LoanPhraseAt;
  }

  lemma MatchAtPhone(s: string, p: nat)
    ensures MatchAt(Phone, s, p) == PhoneAt(s, p)
  {
    assert Recogniser(Phone) == PhoneAt;
  }

  /** The texts `finditer` yields for a pattern over a whole text. */
  function Matches(pat: Pattern, s: string): seq<string> {
    Captured(s, FindIter(s, (q: nat) => MatchAt(pat, s, q), 0))
  }

  /** No pattern matches the empty text. */
  lemma NoMatchesInEmptyText(pat: Pattern)
    ensures Matches(pat, "") == []
  {
    FindIterEmpty((q: nat) => MatchAt(pat, "", q));
  }

  /** Every text `finditer` yields is the kept group of the pattern's own match at some position. */
  lemma MatchesSound(pat: Pattern, s: string, t: string) returns (h: Hit)
    requires t in Matches(pat, s)
    ensures h.start <= |s| && MatchAt(pat, s, h.start) == Some(h)
    ensures h.groupStart <= h.end <= |s| && t == s[h.groupStart..h.end]
  {
    h := CapturedSound(s, (q: nat) => MatchAt(pat, s, q), t);
  }
}
