/** What the number literal of engines/entityExtractor.py:23 matches, and what
    `to_number` makes of such a text: the facts behind the "mortgage shorthand". */
module AmountFacts {
  import opened Text
  import opened Records
  import opened Scan
  import opened EntityPatterns
  import opened EntityExtractor

  predicate AllDigits(u: string) {
    forall i | 0 <= i < |u| :: IsDigit(u[i])
  }

  predicate IsNumeralChar(c: char) { IsDigit(c) || c == ',' || c == '.' }

  /** The text of a number literal as `to_number` sees it: digits, commas and a
      point, starting and ending with a digit, and a decimal numeral once the
      commas are gone. */
  predicate IsNumeral(t: string) {
    |t| > 0 && IsDigit(t[0]) && IsDigit(t[|t| - 1]) &&
    (forall i | 0 <= i < |t| :: IsNumeralChar(t[i])) &&
    IsDecimal(RemoveAll(t, ","))
  }

  /** The text a digit run spans is all digits. */
  lemma DigitRunSlice(s: string, k: nat, min: nat, max: nat, e: nat)
    requires e in DigitRun(s, k, min, max)
    ensures k + min <= e <= |s| && e - k <= max && AllDigits(s[k..e])
  {
    assert forall j :: k <= j < e ==> IsDigit(s[j]);
    forall i | 0 <= i < e - k ensures IsDigit(s[k..e][i]) {
      assert s[k..e][i] == s[k + i];
    }
  }

  lemma SliceConcat(s: string, a: nat, b: nat, c: nat)
    requires a <= b <= c <= |s|
    ensures s[a..c] == s[a..b] + s[b..c]
  {
  }

  /** `,ddd` without its comma is `ddd`. */
  lemma CommaGroupDigits(s: string, j: nat)
    requires CommaGroupAt(s, j)
    ensures RemoveAll(s[j..j + 4], ",") == s[j + 1..j + 4]
    ensures AllDigits(s[j + 1..j + 4])
  {
    var d := s[j + 1..j + 4];
    assert AllDigits(d) by {
      assert d[0] == s[j + 1] && d[1] == s[j + 2] && d[2] == s[j + 3];
    }
    assert s[j..j + 4] == [','] + d;
    RemoveAllCharConcat([','], d, ',');
    assert RemoveAll([','], ",") == "";
    RemoveAllAbsent(d, ",");
  }

  lemma AllDigitsConcat(a: string, b: string)
    requires AllDigits(a) && AllDigits(b)
    ensures AllDigits(a + b)
  {
    assert forall x | |a| <= x < |a + b| :: (a + b)[x] == b[x - |a|];
  }

  /** The text from `j` to `m` is comma groups: digits and commas, a digit
      last, and only digits once the commas are gone. */
  predicate GroupsShaped(s: string, j: nat, m: nat)
    requires j <= m <= |s|
  {
    (forall x | j <= x < m :: IsDigit(s[x]) || s[x] == ',') &&
    (m > j ==> IsDigit(s[m - 1])) &&
    AllDigits(RemoveAll(s[j..m], ","))
  }

  /** `(?:,\d{3})*` spans digits and commas, ends on a digit, and leaves only digits without its commas. */
  lemma {:induction false} CommaGroupsShape(s: string, j: nat, m: nat)
    requires m in CommaGroups(s, j)
    ensures j <= m <= |s| && GroupsShaped(s, j, m)
    decreases |s| - j
  {
    assert Within(s, CommaGroups(s, j), j);
    if m == j {
      assert s[j..m] == "";
    } else {
      assert CommaGroupAt(s, j) && m in CommaGroups(s, j + 4);
      CommaGroupsShape(s, j + 4, m);
      CommaGroupsStep(s, j, m);
    }
  }

  /** One more comma group in front keeps the shape. */
  lemma CommaGroupsStep(s: string, j: nat, m: nat)
    requires CommaGroupAt(s, j) && j + 4 <= m <= |s| && GroupsShaped(s, j + 4, m)
    ensures GroupsShaped(s, j, m)
  {
    SliceConcat(s, j, j + 4, m);
    RemoveAllCharConcat(s[j..j + 4], s[j + 4..m], ',');
    CommaGroupDigits(s, j);
    AllDigitsConcat(s[j + 1..j + 4], RemoveAll(s[j + 4..m], ","));
  }

  /** Shape of an integer part: digits and commas, a digit at each end, only
      digits once the commas are gone. */
  predicate IntShaped(s: string, i: nat, m: nat)
    requires i <= m <= |s|
  {
    i < m && IsDigit(s[i]) && IsDigit(s[m - 1]) &&
    (forall x | i <= x < m :: IsDigit(s[x]) || s[x] == ',') &&
    |RemoveAll(s[i..m], ",")| > 0 && AllDigits(RemoveAll(s[i..m], ","))
  }

  /** One to three digits, a comma group, then more comma groups. */
  lemma GroupedDigits(s: string, i: nat, k: nat, m: nat)
    requires i < k && k + 4 <= m <= |s| && AllDigits(s[i..k]) && CommaGroupAt(s, k)
    requires GroupsShaped(s, k + 4, m)
    ensures IntShaped(s, i, m)
  {
    SliceConcat(s, i, k, m);
    RemoveAllCharConcat(s[i..k], s[k..m], ',');
    RemoveAllAbsent(s[i..k], ",");
    SliceConcat(s, k, k + 4, m);
    RemoveAllCharConcat(s[k..k + 4], s[k + 4..m], ',');
    CommaGroupDigits(s, k);
    AllDigitsConcat(s[k + 1..k + 4], RemoveAll(s[k + 4..m], ","));
    AllDigitsConcat(s[i..k], s[k + 1..k + 4] + RemoveAll(s[k + 4..m], ","));
    assert s[i] == s[i..k][0];
    forall x | i <= x < m ensures IsDigit(s[x]) || s[x] == ',' {
      if x < k {
        assert s[x] == s[i..k][x - i];
      }
    }
  }

  /** `\d{1,3}(?:,\d{3})+` leaves only digits without its commas. */
  lemma GroupedIntShape(s: string, i: nat, m: nat)
    requires m in GroupedInt(s, i)
    ensures i < m <= |s| && IntShaped(s, i, m)
  {
    var k := GroupedIntSplit(s, i, m);
    CommaPlusShaped(s, k, m);
    GroupedDigits(s, i, k, m);
  }

  /** Where the leading digits of `\d{1,3}(?:,\d{3})+` stop and the first comma group starts. */
  lemma GroupedIntSplit(s: string, i: nat, m: nat) returns (k: nat)
    requires m in GroupedInt(s, i)
    ensures i < k <= m <= |s| && AllDigits(s[i..k])
    ensures m in CommaPlus(s, k)
  {
    k := ThenWitness(s, DigitRun(s, i, 1, 3), (k: nat) => CommaPlus(s, k), m);
    DigitRunSlice(s, i, 1, 3, k);
  }

  /** `(?:,\d{3})+` is one comma group and then comma groups. */
  lemma CommaPlusShaped(s: string, k: nat, m: nat)
    requires m in CommaPlus(s, k)
    ensures CommaGroupAt(s, k) && k + 4 <= m <= |s| && GroupsShaped(s, k + 4, m)
  {
    CommaGroupsShape(s, k + 4, m);
  }

  /** The integer part `\d{1,3}(?:,\d{3})+|\d+` spans digits and commas, starts
      and ends on a digit, and leaves only digits without its commas. */
  lemma IntPartShape(s: string, i: nat, m: nat)
    requires m in IntPart(s, i)
    ensures i < m <= |s| && IntShaped(s, i, m)
  {
    if m in DigitRun(s, i, 1, |s|) {
      assert AllDigits(s[i..m]);
      RemoveAllAbsent(s[i..m], ",");
    } else {
      GroupedIntShape(s, i, m);
    }
  }

  /** Digits, or digits, a point and digits, form a decimal numeral. */
  lemma DecimalOfParts(d: string, f: string)
    requires |d| > 0 && AllDigits(d) && |f| > 0 && AllDigits(f)
    ensures IsDecimal(d) && IsDecimal(d + "." + f)
  {
    var u := d + "." + f;
    assert forall x | 0 <= x < |u| :: x != |d| ==> IsDigit(u[x]) by {
      forall x | 0 <= x < |u| && x != |d| ensures IsDigit(u[x]) {
        if x < |d| { assert u[x] == d[x]; } else { assert u[x] == f[x - |d| - 1]; }
      }
    }
  }

  /** An integer part alone is a numeral. */
  lemma IntNumeral(s: string, i: nat, m: nat)
    requires i <= m <= |s| && IntShaped(s, i, m)
    ensures IsNumeral(s[i..m])
  {
    var t := s[i..m];
    DecimalOfParts(RemoveAll(t, ","), "0");
    forall x | 0 <= x < |t| ensures IsNumeralChar(t[x]) { assert t[x] == s[i + x]; }
  }

  /** An integer part, a point and digits form a numeral. */
  lemma FractionNumeral(s: string, i: nat, m: nat, e: nat)
    requires i <= m < e <= |s| && IntShaped(s, i, m)
    requires s[m] == '.' && m + 1 < e && AllDigits(s[m + 1..e])
    ensures IsNumeral(s[i..e])
  {
    var t := s[i..e];
    var d := RemoveAll(s[i..m], ",");
    var f := s[m + 1..e];
    SliceConcat(s, i, m, e);
    SliceConcat(s, m, m + 1, e);
    assert |s[m..m + 1]| == 1 && s[m..m + 1][0] == s[m];
    assert s[m..m + 1] == ".";
    assert t == s[i..m] + ("." + f);
    RemoveAllCharConcat(s[i..m], "." + f, ',');
    RemoveAllAbsent("." + f, ",");
    assert RemoveAll(t, ",") == d + ("." + f);
    assert d + ("." + f) == d + "." + f;
    DecimalOfParts(d, f);
    forall x | 0 <= x < |t| ensures IsNumeralChar(t[x]) {
      assert t[x] == s[i + x];
      if x > m - i {
        assert t[x] == f[x - (m - i) - 1];
      }
    }
    assert t[|t| - 1] == f[|f| - 1];
  }

  /** `\.\d+` is a point and digits. */
  lemma FractionPartShape(s: string, m: nat, e: nat)
    requires e in FractionPart(s, m)
    ensures m < e <= |s| && s[m] == '.' && m + 1 < e && AllDigits(s[m + 1..e])
  {
    assert e in DigitRun(s, m + 1, 1, |s|);
  }

  /** Every text the number literal matches is a numeral. */
  lemma NumShape(s: string, i: nat, e: nat)
    requires e in Num(s, i)
    ensures i < e <= |s| && IsNumeral(s[i..e])
  {
    var m := ThenWitness(s, IntPart(s, i), (k: nat) => Opt(s, FractionPart(s, k), k), e);
    IntPartShape(s, i, m);
    if e == m {
      IntNumeral(s, i, m);
    } else {
      FractionPartShape(s, m, e);
      FractionNumeral(s, i, m, e);
    }
  }

  // ---------------------------------------------------------------------
  // `to_number` on a numeral

  /** Line 83: a markerless value in [100, 10000) is taken to be in thousands. */
  function InThousands(v: real): real {
    if 100.0 <= v < 10000.0 then v * 1000.0 else v
  }

  lemma NumeralLowerCase(t: string)
    requires forall i | 0 <= i < |t| :: IsNumeralChar(t[i])
    ensures Lower(t) == t
  {
    LowerOfLowerCased(t);
  }

  /** A text without letters holds no whole word that starts with a letter. */
  lemma NoLetterNoWord(s: string, ws: seq<string>)
    requires forall i | 0 <= i < |s| :: !IsLetter(s[i])
    requires forall w | w in ws :: |w| > 0 && IsLetter(w[0])
    ensures SearchWord(s, ws, 0) == None
  {
    forall j, w | 0 <= j <= |s| && w in ws ensures !WordAt(s, j, w) {
      if j + |w| <= |s| {
        assert s[j..j + |w|][0] == s[j];
      }
    }
  }

  /** A text without letters carries no magnitude word. */
  lemma NoLetterNoMagnitude(s: string)
    requires forall i | 0 <= i < |s| :: !IsLetter(s[i])
    ensures Magnitude(s) == Scaled(0, s)
  {
    NoLetterNoWord(s, ["billion"]);
    NoLetterNoWord(s, ["bn"]);
    NoLetterNoWord(s, ["million"]);
    NoLetterNoWord(s, ["thousand"]);
    NoLetterNoWord(s, ["k", "m", "b"]);
  }

  /** A numeral holds none of the markers of line 82. */
  lemma NumeralHasNoMarker(t: string)
    requires forall i | 0 <= i < |t| :: IsNumeralChar(t[i])
    ensures !HasMarker(t)
  {
    NumeralLowerCase(t);
    forall x | x in Markers ensures !Contains(Lower(t), x) {
      assert |x| > 0 && !IsNumeralChar(x[0]);
      NotContainsWithoutFirstChar(t, x);
    }
  }

  /** The currency words and the dollar sign are absent from a numeral. */
  lemma NumeralHasNoCurrency(t: string)
    requires |t| > 0 && IsDigit(t[0]) && IsDigit(t[|t| - 1])
    requires forall i | 0 <= i < |t| :: IsNumeralChar(t[i])
    ensures CurrencyStripped(t) == t
  {
    NumeralLowerCase(t);
    StripUnchanged(t);
    RemoveAllAbsent(t, "usd");
    RemoveAllAbsent(t, "cad");
    RemoveAllAbsent(t, "dollars");
    RemoveAllAbsent(t, "dollar");
    RemoveAllAbsent(t, "$");
  }

  /** `to_number` reads a numeral as its decimal value, and a value in
      [100, 10000) as that many thousands, because a numeral carries no marker. */
  lemma NumeralValue(t: string)
    requires IsNumeral(t)
    ensures NumberOf(t) == Some(AmountOf(InThousands(DecimalValue(RemoveAll(t, ",")))))
  {
    NumeralHasNoCurrency(t);
    assert forall i | 0 <= i < |t| :: !IsLetter(t[i]);
    NoLetterNoMagnitude(t);
    var d := RemoveAll(t, ",");
    StripUnchanged(d);
    assert Cleaned(t) == d;
    NumeralHasNoMarker(t);
    assert Scale(DecimalValue(d), 0) == DecimalValue(d);
  }

  /** The number the mortgage-context pattern captures is a numeral. */
  lemma ContextHitIsNumeral(s: string, t: string)
    requires t in Matches(MortgageContext, s)
    ensures IsNumeral(t)
  {
    var h := MatchesSound(MortgageContext, s, t);
    MatchAtMortgageContext(s, h.start);
    assert h.end in BoundedNum(s, h.groupStart);
    assert h.end in Num(s, h.groupStart);
    NumShape(s, h.groupStart, h.end);
  }

  /** The mortgage shorthand: a number after a context keyword ("mortgage
      amount is 850") is read in thousands when it lies in [100, 10000). */
  lemma ContextAmountInThousands(s: string, t: string)
    requires t in Matches(MortgageContext, s)
    ensures IsNumeral(t)
    ensures NumberOf(t) == Some(AmountOf(InThousands(DecimalValue(RemoveAll(t, ",")))))
  {
    ContextHitIsNumeral(s, t);
    NumeralValue(t);
  }

  /** "850" alone is 850000. */
  lemma ShorthandExample()
    ensures NumberOf("850") == Some(Whole(850000))
  {
    var t := "850";
    assert RemoveAll(t, ",") == t by { RemoveAllAbsent(t, ","); }
    assert IsDecimal(t);
    assert IsNumeral(t);
    assert DotIndex(t) == 3 by {
      assert t[1..][1..][1..] == [];
    }
    assert DigitsValue(t) == 850 by {
      assert t[..2] == "85" && t[..2][..1] == "8" && t[..2][..1][..0] == [];
      assert DigitOf('8') == 8 && DigitOf('5') == 5 && DigitOf('0') == 0;
      assert DigitsValue("8") == 8;
      assert DigitsValue("85") == 85;
    }
    assert DecimalValue(t) == 850.0;
    assert InThousands(850.0) == 850000.0;
    assert AmountOf(850000.0) == Whole(850000);
    NumeralValue(t);
  }

  // ---------------------------------------------------------------------
  // Money hits always carry a marker, so the mortgage shorthand never
  // rescales them.

  /** A marker spelled (in any case) inside `s[p..e]`. */
  lemma MarkerWithin(s: string, p: nat, a: nat, b: nat, e: nat)
    requires p <= a <= b <= e <= |s| && Lower(s[a..b]) in Markers
    ensures HasMarker(s[p..e])
  {
    var t := s[p..e];
    var x := Lower(s[a..b]);
    forall j | 0 <= j < b - a ensures Lower(t)[a - p + j] == x[j] {
      assert t[a - p + j] == s[a + j] == s[a..b][j];
    }
    assert Lower(t)[a - p..b - p] == x;
    assert Occurs(Lower(t), x, a - p);
  }

  /** A literal alternative matched at `i`: the ends it yields spell one of the words. */
  lemma LitsWitness(s: string, i: nat, ws: seq<string>, e: nat) returns (k: nat)
    requires e in Lits(s, i, ws)
    ensures k < |ws| && e == i + |ws[k]| && Lower(s[i..e]) == ws[k]
  {
    k :| 0 <= k < |ws| && e == i + |ws[k]| && Lower(s[i..e]) == ws[k];
  }

  lemma DollarPrefixMarked(s: string, p: nat, k: nat, e: nat)
    requires k in DollarPrefix(s, p) && k <= e <= |s|
    ensures HasMarker(s[p..e])
  {
    var k1 := DollarAt(s, p, k);
    DollarSign(s, k1, k);
    assert Markers[0] == "$";
    MarkerWithin(s, p, k1, k1 + 1, e);
  }

  /** Where the dollar sign of `(?:US|CA|C)?\$\s*` sits. */
  lemma DollarAt(s: string, p: nat, k: nat) returns (k1: nat)
    requires k in DollarPrefix(s, p)
    ensures p <= k1 && k in Then(s, Lit(s, k1, "$"), (k2: nat) => Spaces(s, k2))
  {
    var opt := Opt(s, Lits(s, p, ["us", "ca", "c"]), p);
    k1 := ThenWitness(s, opt, (k: nat) => Then(s, Lit(s, k, "$"), (k2: nat) => Spaces(s, k2)), k);
  }

  /** `\$\s*` opens with the dollar sign, a marker. */
  lemma DollarSign(s: string, k1: nat, k: nat)
    requires k in Then(s, Lit(s, k1, "$"), (k2: nat) => Spaces(s, k2))
    ensures k1 + 1 <= k <= |s| && Lower(s[k1..k1 + 1]) == "$"
  {
    var k2 := ThenWitness(s, Lit(s, k1, "$"), (k2: nat) => Spaces(s, k2), k);
    assert k2 == k1 + 1;
  }

  lemma CodePrefixMarked(s: string, p: nat, k: nat, e: nat)
    requires k in CodePrefix(s, p) && k <= e <= |s|
    ensures HasMarker(s[p..e])
  {
    var k1 := ThenWitness(s, Lits(s, p, ["usd", "cad"]), (k: nat) => Spaces(s, k), k);
    var w := LitsWitness(s, p, ["usd", "cad"], k1);
    MarkerWithin(s, p, p, k1, e);
  }

  lemma MagMarked(s: string, p: nat, k: nat, k2: nat, e: nat)
    requires p <= k && k2 in Mag(s, k) && k2 <= e <= |s|
    ensures HasMarker(s[p..e])
  {
    var k3 := ThenWitness(s, Spaces(s, k), (k: nat) => MagWord(s, k), k2);
    MagWordMarker(s, k3, k2);
    MarkerWithin(s, p, k3, k2, e);
  }

  /** A magnitude word is itself a marker. */
  lemma MagWordMarker(s: string, k: nat, e: nat)
    requires e in MagWord(s, k)
    ensures k <= e <= |s| && Lower(s[k..e]) in Markers
  {
    var ws := ["k", "m", "b", "bn", "thousand", "million", "billion"];
    assert e in Lits(s, k, ws);
    var w := LitsWitness(s, k, ws, e);
  }

  lemma SuffixMarked(s: string, p: nat, k: nat, e: nat)
    requires p <= k && e in Suffix(s, k)
    ensures HasMarker(s[p..e])
  {
    assert e in Then(s, Spaces(s, k), (k: nat) => CurrencyWord(s, k));
    var k3 := ThenWitness(s, Spaces(s, k), (k: nat) => CurrencyWord(s, k), e);
    if e in Lits(s, k3, ["usd", "cad"]) {
      var w := LitsWitness(s, k3, ["usd", "cad"], e);
      MarkerWithin(s, p, k3, e, e);
    } else {
      var k4 := ThenWitness(s, Lit(s, k3, "dollar"), (k: nat) => Opt(s, Lit(s, k, "s"), k), e);
      assert k4 == k3 + 6 && Lower(s[k3..k4]) == "dollar";
      assert k4 <= e;
      MarkerWithin(s, p, k3, k4, e);
    }
  }

  lemma WithPrefixMarked(s: string, p: nat, e: nat)
    requires e in MoneyWithPrefix(s, p)
    ensures HasMarker(s[p..e])
  {
    var k := ThenWitness(s, Prefix(s, p), (k: nat) => NumOptMagOptSuffix(s, k), e);
    assert k <= e <= |s| by {
      assert e in NumOptMagOptSuffix(s, k);
    }
    PrefixMarked(s, p, k, e);
  }

  lemma PrefixMarked(s: string, p: nat, k: nat, e: nat)
    requires k in Prefix(s, p) && k <= e <= |s|
    ensures HasMarker(s[p..e])
  {
    if k in DollarPrefix(s, p) {
      DollarPrefixMarked(s, p, k, e);
    } else {
      CodePrefixMarked(s, p, k, e);
    }
  }

  lemma WithMagMarked(s: string, p: nat, e: nat)
    requires e in MoneyWithMag(s, p)
    ensures HasMarker(s[p..e])
  {
    var k := ThenWitness(s, Num(s, p), (k: nat) => Then(s, Mag(s, k), (k2: nat) => OptSuffix(s, k2)), e);
    var k2 := ThenWitness(s, Mag(s, k), (k2: nat) => OptSuffix(s, k2), e);
    MagMarked(s, p, k, k2, e);
  }

  lemma WithSuffixMarked(s: string, p: nat, e: nat)
    requires e in MoneyWithSuffix(s, p)
    ensures HasMarker(s[p..e])
  {
    var k := ThenWitness(s, Num(s, p), (k: nat) => Suffix(s, k), e);
    SuffixMarked(s, p, k, e);
  }

  /** Every end of the money pattern closes a stretch that holds a marker. */
  lemma MoneyEndMarked(s: string, p: nat, e: nat)
    requires e in MoneyEnds(s, p)
    ensures HasMarker(s[p..e])
  {
    if e in MoneyWithPrefix(s, p) {
      WithPrefixMarked(s, p, e);
    } else if e in MoneyWithMag(s, p) {
      WithMagMarked(s, p, e);
    } else {
      WithSuffixMarked(s, p, e);
    }
  }

  /** Every money hit names a currency or a magnitude, so the reading in
      thousands that `to_number` applies to markerless values never touches it. */
  lemma MoneyHitHasMarker(s: string, t: string)
    requires t in Matches(Money, s)
    ensures HasMarker(t)
    ensures forall v: real :: Shorthand(t, v) == v
  {
    var h := MatchesSound(Money, s, t);
    MatchAtMoney(s, h.start);
    assert h.end in MoneyEnds(s, h.start);
    MoneyEndMarked(s, h.start, h.end);
  }

  /** `x * 10^e` for the multipliers of lines 56-65. */
  lemma ScalePowers(x: real)
    ensures Scale(x, 0) == x
    ensures Scale(x, 3) == x * 1000.0
    ensures Scale(x, 6) == x * 1000000.0
    ensures Scale(x, 9) == x * 1000000000.0
  {
    assert Scale(x, 1) == 10.0 * x;
    assert Scale(x, 2) == 100.0 * x;
    assert Scale(x, 3) == 1000.0 * x;
    assert Scale(x, 4) == 10000.0 * x;
    assert Scale(x, 5) == 100000.0 * x;
    assert Scale(x, 6) == 1000000.0 * x;
    assert Scale(x, 7) == 10000000.0 * x;
    assert Scale(x, 8) == 100000000.0 * x;
  }

  /** None of the magnitude words occurs in `c`. */
  predicate NoMagnitudeWord(c: string) {
    !HasWord(c, "billion") && !HasWord(c, "bn") && !HasWord(c, "million") && !HasWord(c, "thousand")
  }

  /** The value `to_number` gives a money hit whose remaining text is the
      numeral `x`: `x` times the multiplier of its magnitude word (billion or
      bn, else million, else thousand, else a stand-alone k, m or b), never
      rescaled by the mortgage shorthand. */
  lemma MoneyHitValue(s: string, t: string, x: real)
    requires t in Matches(Money, s) && ParseDecimal(Cleaned(t)) == Some(x)
    ensures var c := CurrencyStripped(t);
      (HasWord(c, "billion") || HasWord(c, "bn")) ==> NumberOf(t) == Some(AmountOf(x * 1000000000.0))
    ensures var c := CurrencyStripped(t);
      !HasWord(c, "billion") && !HasWord(c, "bn") && HasWord(c, "million") ==>
        NumberOf(t) == Some(AmountOf(x * 1000000.0))
    ensures var c := CurrencyStripped(t);
      !HasWord(c, "billion") && !HasWord(c, "bn") && !HasWord(c, "million") && HasWord(c, "thousand") ==>
        NumberOf(t) == Some(AmountOf(x * 1000.0))
    ensures var c := CurrencyStripped(t);
      NoMagnitudeWord(c) && SearchWord(c, ["k", "m", "b"], 0) == Some("k") ==> NumberOf(t) == Some(AmountOf(x * 1000.0))
    ensures var c := CurrencyStripped(t);
      NoMagnitudeWord(c) && SearchWord(c, ["k", "m", "b"], 0) == Some("m") ==> NumberOf(t) == Some(AmountOf(x * 1000000.0))
    ensures var c := CurrencyStripped(t);
      NoMagnitudeWord(c) && SearchWord(c, ["k", "m", "b"], 0) == Some("b") ==> NumberOf(t) == Some(AmountOf(x * 1000000000.0))
    ensures var c := CurrencyStripped(t);
      NoMagnitudeWord(c) && SearchWord(c, ["k", "m", "b"], 0).None? ==> NumberOf(t) == Some(AmountOf(x))
  {
    MoneyHitScaled(s, t, x);
    ScaledCases(CurrencyStripped(t), NumberOf(t), x);
  }

  /** The case analysis of `MoneyHitValue`, on the scaled value `v`. */
  lemma ScaledCases(c: string, v: Option<Amount>, x: real)
    requires v == Some(AmountOf(Scale(x, Magnitude(c).exponent)))
    ensures (HasWord(c, "billion") || HasWord(c, "bn")) ==> v == Some(AmountOf(x * 1000000000.0))
    ensures !HasWord(c, "billion") && !HasWord(c, "bn") && HasWord(c, "million") ==>
        v == Some(AmountOf(x * 1000000.0))
    ensures !HasWord(c, "billion") && !HasWord(c, "bn") && !HasWord(c, "million") && HasWord(c, "thousand") ==>
        v == Some(AmountOf(x * 1000.0))
    ensures NoMagnitudeWord(c) && SearchWord(c, ["k", "m", "b"], 0) == Some("k") ==> v == Some(AmountOf(x * 1000.0))
    ensures NoMagnitudeWord(c) && SearchWord(c, ["k", "m", "b"], 0) == Some("m") ==> v == Some(AmountOf(x * 1000000.0))
    ensures NoMagnitudeWord(c) && SearchWord(c, ["k", "m", "b"], 0) == Some("b") ==> v == Some(AmountOf(x * 1000000000.0))
    ensures NoMagnitudeWord(c) && SearchWord(c, ["k", "m", "b"], 0).None? ==> v == Some(AmountOf(x))
  {
    var e := Magnitude(c).exponent;
    MagnitudeExponent(c);
    ScalePowers(x);
    if e == 3 {
      SameAmount(Scale(x, e), x * 1000.0);
    } else if e == 6 {
      SameAmount(Scale(x, e), x * 1000000.0);
    } else if e == 9 {
      SameAmount(Scale(x, e), x * 1000000000.0);
    }
  }

  lemma SameAmount(a: real, b: real)
    requires a == b
    ensures AmountOf(a) == AmountOf(b)
  {
  }

  /** A money hit's value is its numeral scaled by its magnitude word, with no
      further shorthand. */
  lemma MoneyHitScaled(s: string, t: string, x: real)
    requires t in Matches(Money, s) && ParseDecimal(Cleaned(t)) == Some(x)
    ensures NumberOf(t) == Some(AmountOf(Scale(x, Magnitude(CurrencyStripped(t)).exponent)))
  {
    MoneyHitHasMarker(s, t);
  }

  /** The power of ten lines 53-69 choose. */
  lemma MagnitudeExponent(c: string)
    ensures HasWord(c, "billion") || HasWord(c, "bn") ==> Magnitude(c).exponent == 9
    ensures !HasWord(c, "billion") && !HasWord(c, "bn") && HasWord(c, "million") ==> Magnitude(c).exponent == 6
    ensures !HasWord(c, "billion") && !HasWord(c, "bn") && !HasWord(c, "million") && HasWord(c, "thousand") ==>
      Magnitude(c).exponent == 3
    ensures NoMagnitudeWord(c) && SearchWord(c, ["k", "m", "b"], 0) == Some("k") ==> Magnitude(c).exponent == 3
    ensures NoMagnitudeWord(c) && SearchWord(c, ["k", "m", "b"], 0) == Some("m") ==> Magnitude(c).exponent == 6
    ensures NoMagnitudeWord(c) && SearchWord(c, ["k", "m", "b"], 0) == Some("b") ==> Magnitude(c).exponent == 9
    ensures NoMagnitudeWord(c) && SearchWord(c, ["k", "m", "b"], 0).None? ==> Magnitude(c).exponent == 0
  {
  }
}
