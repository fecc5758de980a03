/** The amounts testing/fixtures/test_entity_extractor.py expects `to_number`
    to give single hits, including the three hits its expected failures show
    it cannot read. */
module AmountExamples {
  import opened Text
  import opened Records
  import opened EntityExtractor
  import opened AmountFacts
  import opened Scan

  /** Text in front of the first place a pattern can start passes through
      `replace` untouched. */
  lemma {:induction false} RemoveAllAfter(a: string, b: string, pat: string)
    requires |pat| > 0 && pat[0] !in a
    ensures RemoveAll(a + b, pat) == a + RemoveAll(b, pat)
    decreases |a|
  {
    if |a| > 0 {
      var s := a + b;
      assert s[0] == a[0];
      if |s| >= |pat| {
        assert s[..|pat|] != pat by { assert s[..|pat|][0] == s[0]; }
      }
      RemoveAllAfter(a[1..], b, pat);
      assert s[1..] == a[1..] + b;
    } else {
      assert a + b == b;
    }
  }

  /** No word is found in a text lacking its first letter. */
  lemma NoFirstLetterNoWord(s: string, ws: seq<string>, i: nat)
    requires forall w | w in ws :: |w| > 0 && w[0] !in s
    ensures SearchWord(s, ws, i).None?
  {
    forall j, w | i <= j <= |s| && w in ws ensures !WordAt(s, j, w) {
      if j + |w| <= |s| {
        assert s[j..j + |w|][0] == s[j];
      }
    }
  }

  /** No alternative matches at `i` when each is too long, starts with another
      character, or `i` is no word boundary. */
  lemma NoWordHere(s: string, i: nat, ws: seq<string>)
    requires forall k | 0 <= k < |ws| ::
      |ws[k]| > 0 && (i + |ws[k]| > |s| || s[i] != ws[k][0] || !IsBoundary(s, i))
    ensures WordMatchAt(s, i, ws).None?
  {
    forall k | 0 <= k < |ws| ensures !WordAt(s, i, ws[k]) {
      if i + |ws[k]| <= |s| && IsBoundary(s, i) {
        assert s[i..i + |ws[k]|][0] == s[i];
      }
    }
  }

  /** The first alternative spelled at `i` between boundaries matches there. */
  lemma WordHere(s: string, i: nat, w: string)
    requires i + |w| <= |s| && s[i..i + |w|] == w && IsBoundary(s, i) && IsBoundary(s, i + |w|)
    ensures WordMatchAt(s, i, [w]) == Some(w)
  {
  }

  /** The search finds `w` at `i` when no alternative matches before it. */
  lemma {:induction false} FoundAfter(s: string, ws: seq<string>, k: nat, i: nat, w: string)
    requires k <= i && WordMatchAt(s, i, ws) == Some(w)
    requires forall j | k <= j < i :: WordMatchAt(s, j, ws).None?
    ensures SearchWord(s, ws, k) == Some(w)
    decreases i - k
  {
    if k < i {
      FoundAfter(s, ws, k + 1, i, w);
    }
  }

  /** The search finds nothing when no alternative matches anywhere. */
  lemma {:induction false} NotFoundAfter(s: string, ws: seq<string>, k: nat)
    requires forall j | k <= j <= |s| :: WordMatchAt(s, j, ws).None?
    ensures SearchWord(s, ws, k).None?
    decreases |s| + 1 - k
  {
    if k <= |s| {
      NotFoundAfter(s, ws, k + 1);
    }
  }

  /** Word removal keeps the text in front of the first match. */
  lemma {:induction false} KeptBefore(s: string, ws: seq<string>, k: nat, i: nat)
    requires forall v | v in ws :: |v| > 0
    requires k <= i <= |s| && forall j | k <= j < i :: WordMatchAt(s, j, ws).None?
    ensures SubWords(s, ws, k) == s[k..i] + SubWords(s, ws, i)
    decreases i - k
  {
    if k < i {
      var rest := SubWords(s, ws, k + 1);
      assert WordMatchAt(s, k, ws).None?;
      assert SubWords(s, ws, k) == [s[k]] + rest;
      KeptBefore(s, ws, k + 1, i);
      calc {
        SubWords(s, ws, k);
        [s[k]] + (s[k + 1..i] + SubWords(s, ws, i));
        ([s[k]] + s[k + 1..i]) + SubWords(s, ws, i);
        { assert s[k..i] == [s[k]] + s[k + 1..i]; }
        s[k..i] + SubWords(s, ws, i);
      }
    } else {
      assert s[k..i] == [];
    }
  }

  /** A word that ends the text leaves nothing behind it. */
  lemma RemovedAtEnd(s: string, ws: seq<string>, i: nat, w: string)
    requires forall v | v in ws :: |v| > 0
    requires WordMatchAt(s, i, ws) == Some(w) && i + |w| == |s|
    ensures SubWords(s, ws, i) == ""
  {
  }

  /** The words of lines 53-62 are absent from a text lacking b, m and t. */
  lemma NoLongWords(s: string)
    requires 'b' !in s && 'm' !in s && 't' !in s
    ensures NoMagnitudeWord(s)
  {
    NoFirstLetterNoWord(s, ["billion"], 0);
    NoFirstLetterNoWord(s, ["bn"], 0);
    NoFirstLetterNoWord(s, ["million"], 0);
    NoFirstLetterNoWord(s, ["thousand"], 0);
  }

  /** Lines 53-56: billion or bn. */
  lemma BillionBranch(s: string, rest: string)
    requires HasWord(s, "billion") && Strip(SubWords(s, ["billion", "bn"], 0)) == rest
    ensures Magnitude(s) == Scaled(9, rest)
  {
  }

  /** Lines 57-59: million. */
  lemma MillionBranch(s: string, rest: string)
    requires !HasWord(s, "billion") && !HasWord(s, "bn") && HasWord(s, "million")
    requires Strip(SubWords(s, ["million"], 0)) == rest
    ensures Magnitude(s) == Scaled(6, rest)
  {
  }

  /** Lines 60-62: thousand. */
  lemma ThousandBranch(s: string, rest: string)
    requires !HasWord(s, "billion") && !HasWord(s, "bn") && !HasWord(s, "million") && HasWord(s, "thousand")
    requires Strip(SubWords(s, ["thousand"], 0)) == rest
    ensures Magnitude(s) == Scaled(3, rest)
  {
  }

  /** Lines 63-66 when no magnitude word but a stand-alone tag is present. */
  lemma TagMagnitude(s: string, tag: string, rest: string)
    requires NoMagnitudeWord(s)
    requires SearchWord(s, ["k", "m", "b"], 0) == Some(tag)
    requires Strip(SubWords(s, ["k", "m", "b"], 0)) == rest
    ensures Magnitude(s) == Scaled(TagExponent(tag), rest)
  {
  }

  /** No magnitude word and no tag: the text is kept unscaled. */
  lemma Unscaled(s: string)
    requires NoMagnitudeWord(s) && SearchWord(s, ["k", "m", "b"], 0).None?
    ensures Magnitude(s) == Scaled(0, s)
  {
  }

  /** A text without b, m, t or k has no magnitude word. */
  lemma NoMagnitudeLetters(s: string)
    requires 'b' !in s && 'm' !in s && 't' !in s && 'k' !in s
    ensures Magnitude(s) == Scaled(0, s)
  {
    NoLongWords(s);
    NoFirstLetterNoWord(s, ["k", "m", "b"], 0);
  }

  /** Stripping drops the one space a removed word leaves behind. */
  lemma StripTrailingSpace(u: string)
    requires |u| > 0 && !IsSpace(u[0]) && !IsSpace(u[|u| - 1])
    ensures Strip(u + " ") == u
  {
    var t := u + " ";
    assert LeadingSpaces(t) == 0;
    assert t[..|t| - 1] == u;
    assert TrailingSpaces(u) == 0;
    assert TrailingSpaces(t) == 1;
  }

  /** `to_number` on a hit whose steps are known: currency stripping gives
      `c`, the magnitude step `e` and `m`, the comma step `u`, and `float`
      reads `x`. */
  lemma NumberOfParts(raw: string, c: string, e: nat, m: string, u: string, x: real)
    requires CurrencyStripped(raw) == c && Magnitude(c) == Scaled(e, m)
    requires Strip(RemoveAll(m, ",")) == u && ParseDecimal(u) == Some(x)
    ensures NumberOf(raw) == Some(AmountOf(Shorthand(raw, Scale(x, e))))
  {
  }

  /** `to_number` on a hit whose cleaned text is no numeral: the ValueError
      branch of lines 78-80. */
  lemma NumberOfNone(raw: string, c: string, e: nat, m: string, u: string)
    requires CurrencyStripped(raw) == c && Magnitude(c) == Scaled(e, m)
    requires Strip(RemoveAll(m, ",")) == u && ParseDecimal(u) == None
    ensures NumberOf(raw) == None
  {
  }

  /** A hit opening with a dollar sign, the rest already lower case and free
      of currency words, keeps the rest. */
  lemma DollarHit(raw: string, rest: string)
    requires raw == "$" + rest
    requires |rest| > 0 && !IsSpace(rest[0]) && !IsSpace(rest[|rest| - 1])
    requires IsLowerCased(rest) && 'u' !in rest && 'c' !in rest && 'd' !in rest && '$' !in rest
    ensures CurrencyStripped(raw) == rest
    ensures HasMarker(raw)
  {
    assert IsLowerCased(raw) by {
      assert forall i | 1 <= i < |raw| :: raw[i] == rest[i - 1];
    }
    LowerOfLowerCased(raw);
    StripUnchanged(raw);
    RemoveAllAbsent(raw, "usd");
    RemoveAllAbsent(raw, "cad");
    RemoveAllAbsent(raw, "dollars");
    RemoveAllAbsent(raw, "dollar");
    assert raw[..1] == "$" && raw[1..] == rest;
    RemoveAllAbsent(rest, "$");
    StripUnchanged(rest);
    assert Occurs(Lower(raw), "$", 0);
    assert Markers[0] == "$" && Contains(Lower(raw), "$");
  }

  /** A hit that is already lower case, stripped and free of currency words
      is left as it is by the currency stripping. */
  lemma PlainHit(raw: string)
    requires |raw| > 0 && !IsSpace(raw[0]) && !IsSpace(raw[|raw| - 1])
    requires IsLowerCased(raw) && 'u' !in raw && 'c' !in raw && 'd' !in raw && '$' !in raw
    ensures CurrencyStripped(raw) == raw
  {
    LowerOfLowerCased(raw);
    StripUnchanged(raw);
    RemoveAllAbsent(raw, "usd");
    RemoveAllAbsent(raw, "cad");
    RemoveAllAbsent(raw, "dollars");
    RemoveAllAbsent(raw, "dollar");
    RemoveAllAbsent(raw, "$");
  }

  /** A marker of line 82 spelled at `i`. */
  lemma MarkerAt(raw: string, k: nat, i: nat)
    requires k < |Markers| && Occurs(Lower(raw), Markers[k], i)
    ensures HasMarker(raw)
  {
    assert Markers[k] in Markers && Contains(Lower(raw), Markers[k]);
  }

  /** A text without commas that starts and ends with a non-space is what
      the comma step leaves. */
  lemma NoCommas(u: string)
    requires ',' !in u && (|u| > 0 ==> !IsSpace(u[0]) && !IsSpace(u[|u| - 1]))
    ensures Strip(RemoveAll(u, ",")) == u
  {
    RemoveAllAbsent(u, ",");
    StripUnchanged(u);
  }

  /** A numeral without a point is read as its digits. */
  lemma WholeNumeral(u: string)
    requires |u| > 0 && forall i | 0 <= i < |u| :: IsDigit(u[i])
    ensures ParseDecimal(u) == Some(DigitsValue(u) as real)
  {
  }

  /** A text with a letter in it is no numeral. */
  lemma LetterNoNumeral(u: string, i: nat)
    requires i < |u| && !IsDigit(u[i]) && u[i] != '.'
    ensures ParseDecimal(u) == None
  {
  }

  // ---------------------------------------------------------------------
  // "$5,000" is 5000

  lemma FiveThousandStripped(raw: string, c: string)
    requires raw == "$5,000" && c == "5,000"
    ensures CurrencyStripped(raw) == c && HasMarker(raw)
  {
    DollarHit(raw, c);
  }

  lemma FiveThousandUnscaled(c: string)
    requires c == "5,000"
    ensures Magnitude(c) == Scaled(0, c)
  {
    NoMagnitudeLetters(c);
  }

  lemma FiveThousandCommas(c: string, u: string)
    requires c == "5,000" && u == "5000"
    ensures Strip(RemoveAll(c, ",")) == u
  {
    RemoveCharAt(c, 1, ',');
    assert c[..1] + c[2..] == u;
    StripUnchanged(u);
  }

  lemma Numeral5000(u: string)
    requires u == "5000"
    ensures ParseDecimal(u) == Some(5000.0)
  {
    WholeNumeral(u);
    assert u[..3] == "500" && "500"[..2] == "50" && "50"[..1] == "5" && "5"[..0] == "";
  }

  lemma DollarsSimple()
    ensures NumberOf("$5,000") == Some(Whole(5000))
  {
    var raw, c, u := "$5,000", "5,000", "5000";
    FiveThousandStripped(raw, c);
    FiveThousandUnscaled(c);
    FiveThousandCommas(c, u);
    Numeral5000(u);
    NumberOfParts(raw, c, 0, c, u, 5000.0);
    assert AmountOf(5000.0) == Whole(5000);
  }

  // ---------------------------------------------------------------------
  // "$99.99" keeps its cents

  lemma CentsStripped(raw: string, c: string)
    requires raw == "$99.99" && c == "99.99"
    ensures CurrencyStripped(raw) == c && HasMarker(raw)
  {
    DollarHit(raw, c);
  }

  lemma CentsUnscaled(c: string)
    requires c == "99.99"
    ensures Magnitude(c) == Scaled(0, c) && Strip(RemoveAll(c, ",")) == c
  {
    NoMagnitudeLetters(c);
    NoCommas(c);
  }

  lemma Numeral9999(u: string)
    requires u == "99.99"
    ensures ParseDecimal(u) == Some(99.99)
  {
    assert IsDecimal(u);
    assert DotIndex(u) == 2 by {
      assert u[1..][1..][0] == '.';
    }
    assert u[..2] == "99" && "99"[..1] == "9" && "9"[..0] == "";
    assert DigitsValue("99") == 99;
    assert u[3..] == "99" && "99"[1..] == "9" && "9"[1..] == "";
    assert FractionValue("99") == 0.99;
  }

  lemma DollarsWithCents()
    ensures NumberOf("$99.99") == Some(Fraction(99.99))
  {
    var raw, c := "$99.99", "99.99";
    CentsStripped(raw, c);
    CentsUnscaled(c);
    Numeral9999(c);
    NumberOfParts(raw, c, 0, c, c, 99.99);
    assert (99.99).Floor == 99;
  }

  // ---------------------------------------------------------------------
  // "$500 k", with a space before the k, is 500000

  lemma SpacedKStripped(raw: string, c: string)
    requires raw == "$500 k" && c == "500 k"
    ensures CurrencyStripped(raw) == c && HasMarker(raw)
  {
    DollarHit(raw, c);
  }

  lemma SpacedKNoWords(s: string)
    requires s == "500 k"
    ensures NoMagnitudeWord(s)
  {
    NoLongWords(s);
  }

  lemma SpacedKAt(s: string)
    requires s == "500 k"
    ensures WordMatchAt(s, 4, ["k", "m", "b"]) == Some("k")
    ensures forall j | 0 <= j < 4 :: WordMatchAt(s, j, ["k", "m", "b"]).None?
  {
    var ws := ["k", "m", "b"];
    NoWordHere(s, 0, ws);
    NoWordHere(s, 1, ws);
    NoWordHere(s, 2, ws);
    NoWordHere(s, 3, ws);
    assert s[4..5] == "k" && IsBoundary(s, 4) && IsBoundary(s, 5);
    assert WordAt(s, 4, "k");
  }

  lemma SpacedKFound(s: string)
    requires s == "500 k"
    ensures SearchWord(s, ["k", "m", "b"], 0) == Some("k")
  {
    SpacedKAt(s);
    FoundAfter(s, ["k", "m", "b"], 0, 4, "k");
  }

  lemma SpacedKRemoved(s: string, t: string)
    requires s == "500 k" && t == "500 "
    ensures SubWords(s, ["k", "m", "b"], 0) == t
  {
    var ws := ["k", "m", "b"];
    SpacedKAt(s);
    KeptBefore(s, ws, 0, 4);
    RemovedAtEnd(s, ws, 4, "k");
    assert s[0..4] == t;
  }

  lemma SpacedK(s: string, u: string)
    requires s == "500 k" && u == "500"
    ensures Magnitude(s) == Scaled(3, u)
  {
    SpacedKNoWords(s);
    SpacedKFound(s);
    SpacedKRemoved(s, u + " ");
    StripTrailingSpace(u);
    TagMagnitude(s, "k", u);
  }

  lemma Numeral500(u: string)
    requires u == "500"
    ensures ParseDecimal(u) == Some(500.0) && Strip(RemoveAll(u, ",")) == u
  {
    WholeNumeral(u);
    assert u[..2] == "50" && "50"[..1] == "5" && "5"[..0] == "";
    NoCommas(u);
  }

  lemma DollarsSpacedK()
    ensures NumberOf("$500 k") == Some(Whole(500000))
  {
    var raw, c, u := "$500 k", "500 k", "500";
    SpacedKStripped(raw, c);
    SpacedK(c, u);
    Numeral500(u);
    NumberOfParts(raw, c, 3, u, u, 500.0);
    ScalePowers(500.0);
    assert AmountOf(500000.0) == Whole(500000);
  }

  // ---------------------------------------------------------------------
  // "$500k" and "$1.5m": the letter is no word of its own, so no number is left

  lemma JoinedKStripped(raw: string, c: string)
    requires raw == "$500k" && c == "500k"
    ensures CurrencyStripped(raw) == c && HasMarker(raw)
  {
    DollarHit(raw, c);
  }

  lemma JoinedKNoTag(s: string)
    requires s == "500k"
    ensures SearchWord(s, ["k", "m", "b"], 0).None?
  {
    var ws := ["k", "m", "b"];
    NoWordHere(s, 0, ws);
    NoWordHere(s, 1, ws);
    NoWordHere(s, 2, ws);
    assert !IsBoundary(s, 3);
    NoWordHere(s, 3, ws);
    NoWordHere(s, 4, ws);
    NotFoundAfter(s, ws, 0);
  }

  lemma JoinedK(s: string)
    requires s == "500k"
    ensures Magnitude(s) == Scaled(0, s)
  {
    NoLongWords(s);
    JoinedKNoTag(s);
    Unscaled(s);
  }

  lemma JoinedKLeft(c: string)
    requires c == "500k"
    ensures Strip(RemoveAll(c, ",")) == c && ParseDecimal(c) == None
  {
    NoCommas(c);
    LetterNoNumeral(c, 3);
  }

  lemma DollarsJoinedK()
    ensures NumberOf("$500k") == None
  {
    var raw, c := "$500k", "500k";
    JoinedKStripped(raw, c);
    JoinedK(c);
    JoinedKLeft(c);
    NumberOfNone(raw, c, 0, c, c);
  }

  lemma JoinedMStripped(raw: string, c: string)
    requires raw == "$1.5m" && c == "1.5m"
    ensures CurrencyStripped(raw) == c && HasMarker(raw)
  {
    DollarHit(raw, c);
  }

  lemma JoinedMNoMillion(s: string)
    requires s == "1.5m"
    ensures !HasWord(s, "million")
  {
    NoWordHere(s, 0, ["million"]);
    NoWordHere(s, 1, ["million"]);
    NoWordHere(s, 2, ["million"]);
    NoWordHere(s, 3, ["million"]);
    NoWordHere(s, 4, ["million"]);
    NotFoundAfter(s, ["million"], 0);
  }

  lemma JoinedMNoWords(s: string)
    requires s == "1.5m"
    ensures NoMagnitudeWord(s)
  {
    NoFirstLetterNoWord(s, ["billion"], 0);
    NoFirstLetterNoWord(s, ["bn"], 0);
    NoFirstLetterNoWord(s, ["thousand"], 0);
    JoinedMNoMillion(s);
  }

  lemma JoinedMNoTag(s: string)
    requires s == "1.5m"
    ensures SearchWord(s, ["k", "m", "b"], 0).None?
  {
    var ws := ["k", "m", "b"];
    NoWordHere(s, 0, ws);
    NoWordHere(s, 1, ws);
    NoWordHere(s, 2, ws);
    assert !IsBoundary(s, 3);
    NoWordHere(s, 3, ws);
    NoWordHere(s, 4, ws);
    NotFoundAfter(s, ws, 0);
  }

  lemma JoinedM(s: string)
    requires s == "1.5m"
    ensures Magnitude(s) == Scaled(0, s)
  {
    JoinedMNoWords(s);
    JoinedMNoTag(s);
    Unscaled(s);
  }

  lemma JoinedMLeft(c: string)
    requires c == "1.5m"
    ensures Strip(RemoveAll(c, ",")) == c && ParseDecimal(c) == None
  {
    NoCommas(c);
    LetterNoNumeral(c, 3);
  }

  lemma DollarsJoinedM()
    ensures NumberOf("$1.5m") == None
  {
    var raw, c := "$1.5m", "1.5m";
    JoinedMStripped(raw, c);
    JoinedM(c);
    JoinedMLeft(c);
    NumberOfNone(raw, c, 0, c, c);
  }

  // ---------------------------------------------------------------------
  // "CA$100,000": the "ca" stays in front of the digits, so no number is left

  lemma CanadianLower(raw: string, low: string)
    requires raw == "CA$100,000" && low == "ca$100,000"
    ensures Strip(Lower(raw)) == low
  {
    StripUnchanged(low);
  }

  lemma CanadianNoCad(low: string)
    requires low == "ca$100,000"
    ensures RemoveAll(low, "cad") == low
  {
    assert low[..3][2] != "cad"[2];
    RemoveAllAbsent(low[1..], "cad");
    assert [low[0]] + low[1..] == low;
  }

  /** Removing the one character that occurs at `i` only. */
  lemma RemoveCharAt(s: string, i: nat, c: char)
    requires i < |s| && s[i] == c && c !in s[..i] && c !in s[i + 1..]
    ensures RemoveAll(s, [c]) == s[..i] + s[i + 1..]
  {
    assert s == s[..i] + s[i..];
    RemoveAllAfter(s[..i], s[i..], [c]);
    assert s[i..][..1] == [c] && s[i..][1..] == s[i + 1..];
    RemoveAllAbsent(s[i + 1..], [c]);
  }

  lemma CanadianNoSign(low: string, c: string)
    requires low == "ca$100,000" && c == "ca100,000"
    ensures RemoveAll(low, "$") == c
  {
    RemoveCharAt(low, 2, '$');
    assert low[..2] + low[3..] == c;
  }

  lemma CanadianStripped(raw: string, c: string)
    requires raw == "CA$100,000" && c == "ca100,000"
    ensures CurrencyStripped(raw) == c
  {
    var low := "ca$100,000";
    CanadianLower(raw, low);
    RemoveAllAbsent(low, "usd");
    CanadianNoCad(low);
    RemoveAllAbsent(low, "dollars");
    RemoveAllAbsent(low, "dollar");
    CanadianNoSign(low, c);
    StripUnchanged(c);
  }

  lemma CanadianUnscaled(c: string)
    requires c == "ca100,000"
    ensures Magnitude(c) == Scaled(0, c)
  {
    NoMagnitudeLetters(c);
  }

  lemma CanadianCommas(c: string, u: string)
    requires c == "ca100,000" && u == "ca100000"
    ensures Strip(RemoveAll(c, ",")) == u && ParseDecimal(u) == None
  {
    RemoveCharAt(c, 5, ',');
    assert c[..5] + c[6..] == u;
    StripUnchanged(u);
    LetterNoNumeral(u, 0);
  }

  lemma CanadianDollarSign()
    ensures NumberOf("CA$100,000") == None
  {
    var raw, c, u := "CA$100,000", "ca100,000", "ca100000";
    CanadianStripped(raw, c);
    CanadianUnscaled(c);
    CanadianCommas(c, u);
    NumberOfNone(raw, c, 0, c, u);
  }

  // ---------------------------------------------------------------------
  // "5 thousand dollars" is 5000

  lemma ThousandDollarsLower(raw: string)
    requires raw == "5 thousand dollars"
    ensures Strip(Lower(raw)) == raw
  {
    LowerOfLowerCased(raw);
    StripUnchanged(raw);
  }

  /** The only u of "5 thousand dollars" is at 5, and "usd" is not spelled there. */
  lemma OneU(raw: string)
    requires raw == "5 thousand dollars"
    ensures 'u' !in raw[..5] && 'u' !in raw[6..] && raw[5..][..3] != "usd"
  {
    assert raw[5..][..3][2] != "usd"[2];
  }

  lemma NoUsdInThousandDollars(raw: string)
    requires raw == "5 thousand dollars"
    ensures RemoveAll(raw, "usd") == raw
  {
    OneU(raw);
    var tail := raw[5..];
    assert raw == raw[..5] + tail;
    RemoveAllAfter(raw[..5], tail, "usd");
    assert tail[1..] == raw[6..];
    RemoveAllAbsent(tail[1..], "usd");
    assert [tail[0]] + tail[1..] == tail;
  }

  lemma DollarsRemoved(raw: string, s: string)
    requires raw == "5 thousand dollars" && s == "5 thousand "
    ensures RemoveAll(raw, "dollars") == s
  {
    var head, tail := raw[..9], raw[9..];
    assert raw == head + tail;
    RemoveAllAfter(head, tail, "dollars");
    assert tail[..7][1] != "dollars"[1];
    var t1 := tail[1..];
    assert t1[..7][0] != "dollars"[0];
    var t2 := t1[1..];
    assert t2[..7] == "dollars" && t2[7..] == [];
    assert RemoveAll(t2, "dollars") == [];
    assert RemoveAll(t1, "dollars") == [t1[0]];
    assert RemoveAll(tail, "dollars") == [tail[0], t1[0]];
    assert s == head + [tail[0], t1[0]];
  }

  lemma NoDollarLeft(s: string)
    requires s == "5 thousand "
    ensures RemoveAll(s, "dollar") == s
  {
    assert s == "5 thousan" + "d ";
    RemoveAllAfter("5 thousan", "d ", "dollar");
  }

  lemma ThousandDollarsWords(raw: string, s: string)
    requires raw == "5 thousand dollars" && s == "5 thousand "
    ensures RemoveAll(RemoveAll(RemoveAll(RemoveAll(raw, "usd"), "cad"), "dollars"), "dollar") == s
  {
    NoUsdInThousandDollars(raw);
    RemoveAllAbsent(raw, "cad");
    DollarsRemoved(raw, s);
    NoDollarLeft(s);
  }

  lemma ThousandDollarsSign(s: string, c: string)
    requires s == "5 thousand " && c == "5 thousand"
    ensures Strip(RemoveAll(s, "$")) == c
  {
    RemoveAllAbsent(s, "$");
    assert s == c + " ";
    StripTrailingSpace(c);
  }

  lemma ThousandDollarsStripped(raw: string, c: string)
    requires raw == "5 thousand dollars" && c == "5 thousand"
    ensures CurrencyStripped(raw) == c
  {
    var s := c + " ";
    ThousandDollarsLower(raw);
    ThousandDollarsWords(raw, s);
    ThousandDollarsSign(s, c);
  }

  lemma ThousandAt(s: string)
    requires s == "5 thousand"
    ensures WordMatchAt(s, 2, ["thousand"]) == Some("thousand")
    ensures forall j | 0 <= j < 2 :: WordMatchAt(s, j, ["thousand"]).None?
  {
    NoWordHere(s, 0, ["thousand"]);
    NoWordHere(s, 1, ["thousand"]);
    assert s[2..10] == "thousand";
    WordHere(s, 2, "thousand");
  }

  lemma ThousandNoBillion(s: string)
    requires s == "5 thousand"
    ensures !HasWord(s, "billion") && !HasWord(s, "bn")
  {
    NoFirstLetterNoWord(s, ["billion"], 0);
    NoFirstLetterNoWord(s, ["bn"], 0);
  }

  lemma ThousandNoLarger(s: string)
    requires s == "5 thousand"
    ensures !HasWord(s, "billion") && !HasWord(s, "bn") && !HasWord(s, "million")
  {
    ThousandNoBillion(s);
    NoFirstLetterNoWord(s, ["million"], 0);
  }

  lemma ThousandWord(s: string, u: string)
    requires s == "5 thousand" && u == "5"
    ensures Magnitude(s) == Scaled(3, u)
  {
    ThousandNoLarger(s);
    ThousandAt(s);
    FoundAfter(s, ["thousand"], 0, 2, "thousand");
    KeptBefore(s, ["thousand"], 0, 2);
    RemovedAtEnd(s, ["thousand"], 2, "thousand");
    assert s[0..2] == u + " ";
    StripTrailingSpace(u);
    ThousandBranch(s, u);
  }

  lemma ThousandMarker(raw: string)
    requires raw == "5 thousand dollars"
    ensures HasMarker(raw)
  {
    LowerOfLowerCased(raw);
    assert Occurs(Lower(raw), Markers[7], 2);
    MarkerAt(raw, 7, 2);
  }

  lemma Numeral5(u: string)
    requires u == "5"
    ensures ParseDecimal(u) == Some(5.0) && Strip(RemoveAll(u, ",")) == u
  {
    WholeNumeral(u);
    assert u[..0] == "";
    NoCommas(u);
  }

  lemma ThousandDollars()
    ensures NumberOf("5 thousand dollars") == Some(Whole(5000))
  {
    var raw, c, u := "5 thousand dollars", "5 thousand", "5";
    ThousandDollarsStripped(raw, c);
    ThousandWord(c, u);
    Numeral5(u);
    ThousandMarker(raw);
    NumberOfParts(raw, c, 3, u, u, 5.0);
    ScalePowers(5.0);
    assert AmountOf(5000.0) == Whole(5000);
  }

  // ---------------------------------------------------------------------
  // "1.25 million" is 1250000

  lemma MillionMarker(raw: string)
    requires raw == "1.25 million"
    ensures CurrencyStripped(raw) == raw && HasMarker(raw)
  {
    PlainHit(raw);
    LowerOfLowerCased(raw);
    assert Occurs(Lower(raw), Markers[5], 5);
    MarkerAt(raw, 5, 5);
  }

  lemma MillionNotBefore(s: string)
    requires s == "1.25 million"
    ensures forall j | 0 <= j < 5 :: WordMatchAt(s, j, ["million"]).None?
  {
    NoWordHere(s, 0, ["million"]);
    NoWordHere(s, 1, ["million"]);
    NoWordHere(s, 2, ["million"]);
    NoWordHere(s, 3, ["million"]);
    NoWordHere(s, 4, ["million"]);
  }

  lemma MillionAt(s: string)
    requires s == "1.25 million"
    ensures WordMatchAt(s, 5, ["million"]) == Some("million")
    ensures forall j | 0 <= j < 5 :: WordMatchAt(s, j, ["million"]).None?
  {
    MillionNotBefore(s);
    assert s[5..12] == "million";
    WordHere(s, 5, "million");
  }

  lemma MillionNoLarger(s: string)
    requires s == "1.25 million"
    ensures !HasWord(s, "billion") && !HasWord(s, "bn")
  {
    NoFirstLetterNoWord(s, ["billion"], 0);
    NoFirstLetterNoWord(s, ["bn"], 0);
  }

  lemma MillionRemoved(s: string, u: string)
    requires s == "1.25 million" && u == "1.25"
    ensures Strip(SubWords(s, ["million"], 0)) == u
  {
    MillionAt(s);
    KeptBefore(s, ["million"], 0, 5);
    RemovedAtEnd(s, ["million"], 5, "million");
    assert s[0..5] == u + " ";
    assert SubWords(s, ["million"], 0) == u + " ";
    StripTrailingSpace(u);
  }

  lemma MillionWord(s: string, u: string)
    requires s == "1.25 million" && u == "1.25"
    ensures Magnitude(s) == Scaled(6, u)
  {
    MillionNoLarger(s);
    MillionAt(s);
    FoundAfter(s, ["million"], 0, 5, "million");
    MillionRemoved(s, u);
    MillionBranch(s, u);
  }

  lemma Numeral125(u: string)
    requires u == "1.25"
    ensures ParseDecimal(u) == Some(1.25) && Strip(RemoveAll(u, ",")) == u
  {
    assert IsDecimal(u);
    assert DotIndex(u) == 1 by {
      assert u[1..][0] == '.';
    }
    assert u[..1] == "1" && "1"[..0] == "";
    assert u[2..] == "25" && "25"[1..] == "5" && "5"[1..] == "";
    assert FractionValue("25") == 0.25;
    NoCommas(u);
  }

  lemma MillionKeyword()
    ensures NumberOf("1.25 million") == Some(Whole(1250000))
  {
    var raw, u := "1.25 million", "1.25";
    MillionMarker(raw);
    MillionWord(raw, u);
    Numeral125(u);
    NumberOfParts(raw, raw, 6, u, u, 1.25);
    ScalePowers(1.25);
    assert AmountOf(1250000.0) == Whole(1250000);
  }

  // ---------------------------------------------------------------------
  // "2 billion" is 2000000000

  lemma BillionMarker(raw: string)
    requires raw == "2 billion"
    ensures CurrencyStripped(raw) == raw && HasMarker(raw)
  {
    PlainHit(raw);
    LowerOfLowerCased(raw);
    assert Occurs(Lower(raw), Markers[6], 2);
    MarkerAt(raw, 6, 2);
  }

  lemma BillionAt(s: string, ws: seq<string>)
    requires s == "2 billion" && (ws == ["billion"] || ws == ["billion", "bn"])
    ensures WordMatchAt(s, 2, ws) == Some("billion")
    ensures forall j | 0 <= j < 2 :: WordMatchAt(s, j, ws).None?
  {
    NoWordHere(s, 0, ws);
    NoWordHere(s, 1, ws);
    assert s[2..9] == "billion";
    assert WordAt(s, 2, "billion");
  }

  lemma BillionWord(s: string, u: string)
    requires s == "2 billion" && u == "2"
    ensures Magnitude(s) == Scaled(9, u)
  {
    BillionAt(s, ["billion"]);
    FoundAfter(s, ["billion"], 0, 2, "billion");
    BillionAt(s, ["billion", "bn"]);
    KeptBefore(s, ["billion", "bn"], 0, 2);
    RemovedAtEnd(s, ["billion", "bn"], 2, "billion");
    assert s[0..2] == u + " ";
    StripTrailingSpace(u);
    BillionBranch(s, u);
  }

  lemma Numeral2(u: string)
    requires u == "2"
    ensures ParseDecimal(u) == Some(2.0) && Strip(RemoveAll(u, ",")) == u
  {
    WholeNumeral(u);
    assert u[..0] == "";
    NoCommas(u);
  }

  lemma BillionKeyword()
    ensures NumberOf("2 billion") == Some(Whole(2000000000))
  {
    var raw, u := "2 billion", "2";
    BillionMarker(raw);
    BillionWord(raw, u);
    Numeral2(u);
    NumberOfParts(raw, raw, 9, u, u, 2.0);
    ScalePowers(2.0);
    assert AmountOf(2000000000.0) == Whole(2000000000);
  }
}
