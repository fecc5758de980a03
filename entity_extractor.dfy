/** engines/entityExtractor.py: amounts, dates, phone numbers and loan numbers
    pulled out of a transcript's normalised text. */
module EntityExtractor {
  import opened Text
  import opened Records
  import opened Scan
  import opened EntityPatterns

  // ---------------------------------------------------------------------
  // Order-preserving de-duplication (lines 96-104 and 153-160)

  /** The elements of `xs` without repeats, each kept where it first occurs. */
  function Unique<T(==,!new)>(xs: seq<T>): (u: seq<T>)
    ensures forall x :: x in u <==> x in xs
    decreases |xs|
  {
    if |xs| == 0 then []
    else
      var u := Unique(xs[..|xs| - 1]);
      var x := xs[|xs| - 1];
      assert xs == xs[..|xs| - 1] + [x];
      if x in u then u else u + [x]
  }

  /** No value appears twice. */
  predicate Distinct<T(==)>(xs: seq<T>) {
    forall a, b | 0 <= a < b < |xs| :: xs[a] != xs[b]
  }

  /** The positions where a value occurs for the first time, read left to right. */
  function FirstOccurrences<T(==)>(xs: seq<T>): seq<T>
    decreases |xs|
  {
    if |xs| == 0 then []
    else
      var n := |xs| - 1;
      FirstOccurrences(xs[..n]) + (if xs[n] in xs[..n] then [] else [xs[n]])
  }

  /** De-duplication keeps exactly the first occurrence of every value, in order,
      and what it keeps has no repeats. */
  lemma {:induction false} UniqueIsFirstOccurrences<T(!new)>(xs: seq<T>)
    ensures Unique(xs) == FirstOccurrences(xs)
    ensures Distinct(Unique(xs))
    decreases |xs|
  {
    if |xs| > 0 {
      var n := |xs| - 1;
      UniqueIsFirstOccurrences(xs[..n]);
      var u := Unique(xs[..n]);
      if xs[n] !in u {
        forall a, b | 0 <= a < b < |u| + 1 ensures (u + [xs[n]])[a] != (u + [xs[n]])[b] {
          if b == |u| {
            assert (u + [xs[n]])[a] == u[a];
            assert u[a] in u;
          }
        }
      }
    }
  }

  /** `seen`/`uniq` loop of the source: keeps each value the first time it is seen. */
  method Dedup<T(==,!new)>(xs: seq<T>) returns (uniq: seq<T>)
    ensures uniq == Unique(xs)
  {
    var seen: set<T> := {};
    uniq := [];
    var i := 0;
    while i < |xs|
      invariant 0 <= i <= |xs|
      invariant uniq == Unique(xs[..i])
      invariant forall x :: x in seen <==> x in uniq
    {
      var v := xs[i];
      assert xs[..i + 1][..i] == xs[..i];
      if v !in seen {
        seen := seen + {v};
        uniq := uniq + [v];
      }
      i := i + 1;
    }
    assert xs[..i] == xs;
  }

  // ---------------------------------------------------------------------
  // `to_number` (lines 47-88)

  /** `\bw\b` at `i` (`to_number` searches its already lower-cased text case-sensitively). */
  predicate WordAt(s: string, i: nat, w: string) {
    i + |w| <= |s| && s[i..i + |w|] == w && IsBoundary(s, i) && IsBoundary(s, i + |w|)
  }

  /** The first of the alternatives `ws` that matches as a whole word at `i`. */
  function WordMatchAt(s: string, i: nat, ws: seq<string>): (r: Option<string>)
    ensures r.Some? ==> r.value in ws && WordAt(s, i, r.value)
    ensures r.None? ==> forall w | w in ws :: !WordAt(s, i, w)
    decreases |ws|
  {
    if |ws| == 0 then None
    else if WordAt(s, i, ws[0]) then Some(ws[0])
    else WordMatchAt(s, i, ws[1..])
  }

  /** `re.search(r"\b(w1|w2|...)\b", s)` from `i`: the word of the leftmost match. */
  function SearchWord(s: string, ws: seq<string>, i: nat): (r: Option<string>)
    ensures r.Some? ==> r.value in ws && exists j | i <= j <= |s| :: WordAt(s, j, r.value)
    ensures r.None? ==> forall j, w | i <= j <= |s| && w in ws :: !WordAt(s, j, w)
    decreases |s| + 1 - i
  {
    if i > |s| then None
    else
      match WordMatchAt(s, i, ws)
      case Some(w) => Some(w)
      case None => SearchWord(s, ws, i + 1)
  }

  /** `re.sub(r"\b(w1|w2|...)\b", "", s)` from `i`; word boundaries are judged in the original text. */
  function SubWords(s: string, ws: seq<string>, i: nat): (r: string)
    requires forall w | w in ws :: |w| > 0
    decreases |s| - i
  {
    if i >= |s| then ""
    else
      match WordMatchAt(s, i, ws)
      case Some(w) => SubWords(s, ws, i + |w|)
      case None => [s[i]] + SubWords(s, ws, i + 1)
  }

  predicate HasWord(s: string, w: string) {
    SearchWord(s, [w], 0).Some?
  }

  /** The multiplier a magnitude word gives, as a power of ten, and the text
      with the word removed. */
  datatype Scaled = Scaled(exponent: nat, rest: string)

  /** Lines 53-69: billion/bn, else million, else thousand, else the first
      stand-alone k, m or b, tried in that order. */
  function Magnitude(s: string): (r: Scaled)
    ensures r.exponent in {0, 3, 6, 9}
  {
    if HasWord(s, "billion") || HasWord(s, "bn") then
      Scaled(9, Strip(SubWords(s, ["billion", "bn"], 0)))
    else if HasWord(s, "million") then
      Scaled(6, Strip(SubWords(s, ["million"], 0)))
    else if HasWord(s, "thousand") then
      Scaled(3, Strip(SubWords(s, ["thousand"], 0)))
    else
      match SearchWord(s, ["k", "m", "b"], 0)
      case Some(tag) => Scaled(TagExponent(tag), Strip(SubWords(s, ["k", "m", "b"], 0)))
      case None => Scaled(0, s)
  }

  /** Lines 64-65: k is a thousand, m a million, b a billion. */
  function TagExponent(tag: string): nat {
    if tag == "k" then 3 else if tag == "m" then 6 else 9
  }

  /** `x * 10^e`, one factor of ten at a time. */
  function Scale(x: real, e: nat): (r: real)
    ensures x >= 0.0 ==> r >= x
    decreases e
  {
    if e == 0 then x else 10.0 * Scale(x, e - 1)
  }

  /** A plain decimal numeral: digits with at most one inner point. */
  predicate IsDecimal(u: string) {
    |u| > 0 && IsDigit(u[0]) && IsDigit(u[|u| - 1]) &&
    (forall i | 0 <= i < |u| :: IsDigit(u[i]) || u[i] == '.') &&
    (forall i, j | 0 <= i < j < |u| :: u[i] == '.' ==> u[j] != '.')
  }

  /** The value of the digits after a decimal point: 0.d1d2... */
  function FractionValue(t: string): (v: real)
    requires forall i :: 0 <= i < |t| ==> IsDigit(t[i])
    ensures 0.0 <= v < 1.0
    decreases |t|
  {
    if |t| == 0 then 0.0 else (DigitOf(t[0]) as real + FractionValue(t[1..])) / 10.0
  }

  /** The index of the first '.' in `u`, or |u|. */
  function DotIndex(u: string): (d: nat)
    ensures d <= |u| && (d < |u| ==> u[d] == '.') && forall i | 0 <= i < d :: u[i] != '.'
    decreases |u|
  {
    if |u| == 0 || u[0] == '.' then 0 else 1 + DotIndex(u[1..])
  }

  /** The exact value of a decimal numeral. */
  function DecimalValue(u: string): real
    requires IsDecimal(u)
  {
    var d := DotIndex(u);
    if d == |u| then DigitsValue(u) as real
    else DigitsValue(u[..d]) as real + FractionValue(u[d + 1..])
  }

  /** `float(s)` on what is left of a hit: the numeral's value, or `None` for the
      ValueError. */
  function ParseDecimal(u: string): (r: Option<real>)
    ensures r.Some? <==> IsDecimal(u)
  {
    if IsDecimal(u) then Some(DecimalValue(u)) else None
  }

  /** The markers of line 82. */
  const Markers: seq<string> :=
    ["$", "usd", "cad", "dollar", "k", "m", "b", "thousand", "million", "billion", "bn"]

  /** Line 82: the lower-cased hit contains a currency or magnitude marker. */
  predicate HasMarker(raw: string) {
    exists x | x in Markers :: Contains(Lower(raw), x)
  }

  /** Lines 83-84, the mortgage shorthand: a markerless value in [100, 10000) means thousands. */
  function Shorthand(raw: string, val: real): real {
    if !HasMarker(raw) && 100.0 <= val < 10000.0 then val * 1000.0 else val
  }

  /** Lines 48-51: lower-case, drop the currency words and the dollar sign. */
  function CurrencyStripped(raw: string): string {
    var s := Strip(Lower(raw));
    var s := RemoveAll(RemoveAll(RemoveAll(RemoveAll(s, "usd"), "cad"), "dollars"), "dollar");
    Strip(RemoveAll(s, "$"))
  }

  /** Lines 48-75: what is left of a hit once currency, magnitude word and commas are gone. */
  function Cleaned(raw: string): string {
    Strip(RemoveAll(Magnitude(CurrencyStripped(raw)).rest, ","))
  }

  /** What `to_number` returns for a hit: `None` when no numeral is left (lines 76-80). */
  function NumberOf(raw: string): (r: Option<Amount>)
    ensures r.Some? ==> r.value.Canonical()
  {
    match ParseDecimal(Cleaned(raw))
    case None => None
    case Some(x) => Some(AmountOf(Shorthand(raw, Scale(x, Magnitude(CurrencyStripped(raw)).exponent))))
  }

  /** Lines 53-69 of `to_number`: find the magnitude word, remember its
      multiplier (as a power of ten) and remove it. */
  method TakeMagnitude(s0: string) returns (exponent: nat, s: string)
    ensures Scaled(exponent, s) == Magnitude(s0)
  {
    s := s0;
    exponent := 0;
    if HasWord(s, "billion") || HasWord(s, "bn") {
      exponent := 9;
      s := Strip(SubWords(s, ["billion", "bn"], 0));
    } else if HasWord(s, "million") {
      exponent := 6;
      s := Strip(SubWords(s, ["million"], 0));
    } else if HasWord(s, "thousand") {
      exponent := 3;
      s := Strip(SubWords(s, ["thousand"], 0));
    } else {
      var m := SearchWord(s, ["k", "m", "b"], 0);
      if m.Some? {
        exponent := TagExponent(m.value);
        s := Strip(SubWords(s, ["k", "m", "b"], 0));
      }
    }
  }

  /** `to_number`, step by step as the source reassigns `s` and the multiplier
      (kept here as its power of ten, `mult == 10^exponent`). */
  method ToNumber(raw: string) returns (v: Option<Amount>)
    ensures v == NumberOf(raw)
    ensures v.Some? ==> v.value.Canonical()
  {
    var s := Strip(Lower(raw));
    s := RemoveAll(RemoveAll(RemoveAll(RemoveAll(s, "usd"), "cad"), "dollars"), "dollar");
    s := Strip(RemoveAll(s, "$"));
    assert s == CurrencyStripped(raw);
    var exponent;
    exponent, s := TakeMagnitude(s);
    s := Strip(RemoveAll(s, ","));
    assert s == Cleaned(raw);
    if s == "" {
      return None;
    }
    var parsed := ParseDecimal(s);
    if parsed.None? {
      return None;
    }
    var val := Scale(parsed.value, exponent);
    if !HasMarker(raw) && 100.0 <= val < 10000.0 {
      val := val * 1000.0;
    }
    assert val == Shorthand(raw, Scale(parsed.value, exponent));
    v := Some(AmountOf(val));
  }

  // ---------------------------------------------------------------------
  // `extract_amounts` (lines 13-104)

  /** Lines 43-45: the money pattern's hits, then the mortgage-context pattern's. */
  function AmountHits(text: string): seq<string> {
    Matches(Money, text) + Matches(MortgageContext, text)
  }

  /** The values `f` gives to the elements of `xs`, in order, skipping the
      elements it gives none. */
  function FilterMap<A, B>(xs: seq<A>, f: A -> Option<B>): seq<B>
    decreases |xs|
  {
    if |xs| == 0 then []
    else
      var n := |xs| - 1;
      FilterMap(xs[..n], f) + (if f(xs[n]).Some? then [f(xs[n]).value] else [])
  }

  lemma FilterMapStep<A, B>(xs: seq<A>, f: A -> Option<B>, i: nat)
    requires i < |xs|
    ensures FilterMap(xs[..i + 1], f) ==
      FilterMap(xs[..i], f) + (if f(xs[i]).Some? then [f(xs[i]).value] else [])
  {
    assert xs[..i + 1][..i] == xs[..i];
  }

  /** Every kept value is one `f` gives to some element. */
  lemma {:induction false} FilterMapValues<A, B>(xs: seq<A>, f: A -> Option<B>)
    ensures forall k | 0 <= k < |FilterMap(xs, f)| ::
      exists j | 0 <= j < |xs| :: f(xs[j]) == Some(FilterMap(xs, f)[k])
    ensures |FilterMap(xs, f)| <= |xs|
    decreases |xs|
  {
    if |xs| > 0 {
      var n := |xs| - 1;
      var init := FilterMap(xs[..n], f);
      FilterMapValues(xs[..n], f);
      var r := FilterMap(xs, f);
      forall k | 0 <= k < |r| ensures exists j | 0 <= j < |xs| :: f(xs[j]) == Some(r[k]) {
        if k < |init| {
          var j :| 0 <= j < n && f(xs[..n][j]) == Some(init[k]);
          assert xs[..n][j] == xs[j] && r[k] == init[k];
        } else {
          assert r == init + [f(xs[n]).value];
          assert f(xs[n]) == Some(r[k]);
        }
      }
      assert |r| <= |init| + 1;
    } else {
      assert FilterMap(xs, f) == [];
    }
  }

  /** Lines 90-94: the values of the hits that parse, in order. */
  function Parsed(hits: seq<string>): seq<Amount> {
    FilterMap(hits, NumberOf)
  }

  /** Every parsed amount is held canonically, so the `in seen` test of the
      de-duplication compares amounts by value, as Python's `==` does. */
  lemma ParsedCanonical(hits: seq<string>)
    ensures forall k | 0 <= k < |Parsed(hits)| :: Parsed(hits)[k].Canonical()
  {
    FilterMapValues(hits, NumberOf);
    forall k | 0 <= k < |Parsed(hits)| ensures Parsed(hits)[k].Canonical() {
      var j :| 0 <= j < |hits| && NumberOf(hits[j]) == Some(Parsed(hits)[k]);
    }
  }

  /** The amounts of a text, as `extract_amounts` returns them. */
  function Amounts(text: string): seq<Amount> {
    Unique(Parsed(AmountHits(text)))
  }

  method ExtractAmounts(text: string) returns (amounts: seq<Amount>)
    ensures amounts == Amounts(text)
  {
    var rawHits := Matches(Money, text);
    rawHits := rawHits + Matches(MortgageContext, text);
    assert rawHits == AmountHits(text);
    var nums: seq<Amount> := [];
    var i := 0;
    while i < |rawHits|
      invariant 0 <= i <= |rawHits|
      invariant nums == Parsed(rawHits[..i])
    {
      var v := ToNumber(rawHits[i]);
      FilterMapStep(rawHits, NumberOf, i);
      if v.Some? {
        nums := nums + [v.value];
      }
      i := i + 1;
    }
    assert rawHits[..i] == rawHits;
    amounts := Dedup(nums);
  }

  // ---------------------------------------------------------------------
  // `extract_dates`, `extract_phones`, `extract_loan_numbers`, `extract_all_entities`

  /** The six date patterns in the order of lines 108-113. */
  const DatePatterns: seq<Pattern> :=
    [DateNumeric, DateIso, DateMonthDayYear, DateDayMonthYear, DateDayMonth, DateMonthDay]

  /** The lists `f` gives to the elements of `xs`, concatenated in order. */
  function FlatMap<A, B>(xs: seq<A>, f: A -> seq<B>): seq<B>
    decreases |xs|
  {
    if |xs| == 0 then [] else FlatMap(xs[..|xs| - 1], f) + f(xs[|xs| - 1])
  }

  lemma FlatMapStep<A, B>(xs: seq<A>, f: A -> seq<B>, i: nat)
    requires i < |xs|
    ensures FlatMap(xs[..i + 1], f) == FlatMap(xs[..i], f) + f(xs[i])
  {
    assert xs[..i + 1][..i] == xs[..i];
  }

  /** A pattern's matches in the text, as a function of the pattern. */
  function PatternMatches(text: string): Pattern -> seq<string> {
    (pat: Pattern) => Matches(pat, text)
  }

  lemma PatternMatchesOf(text: string, pat: Pattern)
    ensures PatternMatches(text)(pat) == Matches(pat, text)
  {
  }

  /** The matches of each pattern in turn, concatenated. */
  function AllMatches(pats: seq<Pattern>, text: string): seq<string> {
    FlatMap(pats, PatternMatches(text))
  }

  function Dates(text: string): seq<string> {
    AllMatches(DatePatterns, text)
  }

  /** `extract_dates`: every pattern's matches, in pattern order, nothing removed. */
  method ExtractDates(text: string) returns (dates: seq<string>)
    ensures dates == Dates(text)
  {
    dates := [];
    var i := 0;
    while i < |DatePatterns|
      invariant 0 <= i <= |DatePatterns|
      invariant dates == AllMatches(DatePatterns[..i], text)
    {
      FlatMapStep(DatePatterns, PatternMatches(text), i);
      PatternMatchesOf(text, DatePatterns[i]);
      dates := dates + Matches(DatePatterns[i], text);
      i := i + 1;
    }
    assert DatePatterns[..i] == DatePatterns;
  }

  /** `extract_phones` */
  function Phones(text: string): seq<string> {
    Matches(Phone, text)
  }

  /** The two loan-number patterns in the order of lines 141-142. */
  const LoanPatterns: seq<Pattern> := [LoanTag, LoanPhrase]

  function LoanNumbers(text: string): seq<string> {
    Unique(AllMatches(LoanPatterns, text))
  }

  /** `extract_loan_numbers`: the hits of both patterns, then de-duplicated. */
  method ExtractLoanNumbers(text: string) returns (loanNumbers: seq<string>)
    ensures loanNumbers == LoanNumbers(text)
  {
    var hits: seq<string> := [];
    var i := 0;
    while i < |LoanPatterns|
      invariant 0 <= i <= |LoanPatterns|
      invariant hits == AllMatches(LoanPatterns[..i], text)
    {
      FlatMapStep(LoanPatterns, PatternMatches(text), i);
      PatternMatchesOf(text, LoanPatterns[i]);
      hits := hits + Matches(LoanPatterns[i], text);
      i := i + 1;
    }
    assert LoanPatterns[..i] == LoanPatterns;
    loanNumbers := Dedup(hits);
  }

  /** The entities of a text. */
  function EntitiesOf(text: string): Entities {
    Entities(Amounts(text), Dates(text), Phones(text), LoanNumbers(text))
  }

  /** `extract_all_entities`: every extractor runs on the normalised text. */
  method ExtractAllEntities(t: Transcript) returns (e: Entities)
    ensures e == EntitiesOf(t.normalizedText)
  {
    var text := t.normalizedText;
    var amounts := ExtractAmounts(text);
    var dates := ExtractDates(text);
    var loanNumbers := ExtractLoanNumbers(text);
    e := Entities(amounts, dates, Phones(text), loanNumbers);
  }
}
