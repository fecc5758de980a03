/** engines/summaryGenerator.py: the short bullet list that summarises a call.
    The file holds only `_extract_payment_info`; the bullet API below is the
    one its unit tests (testing/fixtures/test_summary_generator.py) pin down
    and the pipeline calls. */
module SummaryGenerator {
  import opened Text
  import opened Records

  // ---------------------------------------------------------------------
  // The stub as written

  /** tkinter's `NONE` constant, which the stub returns: the string "none". */
  const TkNone: string := "none"

  /** `_extract_payment_info`: `', '.join` over the amounts, which are numbers,
      raises TypeError as soon as there is one; without amounts the tkinter
      constant comes back. */
  function ExtractPaymentInfo(e: Entities): (r: Result<string, Error>)
    ensures r.Ok? <==> |e.amounts| == 0
    ensures r.Ok? ==> r.value == TkNone
    ensures r.Err? ==> r.error == TypeError
  {
    if |e.amounts| > 0 then Err(TypeError) else Ok(TkNone)
  }

  // ---------------------------------------------------------------------
  // Money: `f"${x:,.2f}"`

  /** Three digits with leading zeros, one thousands group. */
  function Pad3(m: nat): (r: string)
    requires m < 1000
    ensures |r| == 3 && forall i :: 0 <= i < 3 ==> IsDigit(r[i])
  {
    [DigitChar(m / 100), DigitChar(m / 10 % 10), DigitChar(m % 10)]
  }

  /** Two digits with a leading zero, the cents. */
  function Pad2(m: nat): (r: string)
    requires m < 100
    ensures |r| == 2 && forall i :: 0 <= i < 2 ==> IsDigit(r[i])
  {
    [DigitChar(m / 10), DigitChar(m % 10)]
  }

  /** A natural number with ',' between thousands groups. */
  function Grouped(n: nat): (r: string)
    ensures |r| > 0 && IsDigit(r[0])
    decreases n
  {
    if n < 1000 then NatToString(n) else Grouped(n / 1000) + "," + Pad3(n % 1000)
  }

  /** The number of cents `.2f` shows for a magnitude, rounded to nearest. */
  function Cents(x: real): (c: nat)
    requires x >= 0.0
    ensures c as real - 0.5 <= 100.0 * x < c as real + 0.5
  {
    (100.0 * x + 0.5).Floor
  }

  function Abs(x: real): real {
    if x < 0.0 then -x else x
  }

  /** `f"${a:,.2f}"`: a dollar sign, the sign, the grouped whole dollars, a
      point and two digits of cents. */
  function Money(a: Amount): (r: string)
    ensures |r| >= 5 && r[0] == '$' && r[|r| - 3] == '.'
  {
    var c := Cents(Abs(a.Value()));
    "$" + (if a.Value() < 0.0 then "-" else "") + Grouped(c / 100) + "." + Pad2(c % 100)
  }

  /** The last three digits of a number of at least four digits form its
      last group. */
  lemma NatToStringThousands(n: nat)
    requires n >= 1000
    ensures NatToString(n) == NatToString(n / 1000) + Pad3(n % 1000)
  {
    var q, m := n / 1000, n % 1000;
    assert n / 10 == 100 * q + m / 10;
    assert n / 100 == 10 * q + m / 100;
    assert n / 10 / 10 == n / 100 && n / 100 / 10 == q;
    assert n % 10 == m % 10 && n / 10 % 10 == m / 10 % 10 && n / 100 % 10 == m / 100;
    calc {
      NatToString(n);
      NatToString(n / 10) + [DigitChar(n % 10)];
      NatToString(n / 100) + [DigitChar(n / 10 % 10)] + [DigitChar(n % 10)];
      NatToString(q) + [DigitChar(n / 100 % 10)] + [DigitChar(n / 10 % 10)] + [DigitChar(n % 10)];
      NatToString(q) + Pad3(m);
    }
  }

  /** Taking the separators out of a grouped number leaves its plain digits. */
  lemma {:induction false} GroupedDigits(n: nat)
    ensures RemoveAll(Grouped(n), ",") == NatToString(n)
    decreases n
  {
    if n < 1000 {
      RemoveAllAbsent(NatToString(n), ",");
    } else {
      GroupedDigits(n / 1000);
      NatToStringThousands(n);
      RemoveAllCharConcat(Grouped(n / 1000) + ",", Pad3(n % 1000), ',');
      RemoveAllCharConcat(Grouped(n / 1000), ",", ',');
      RemoveAllAbsent(Pad3(n % 1000), ",");
      assert RemoveAll(",", ",") == "";
    }
  }

  /** Reading two more digits multiplies by a hundred. */
  lemma DigitsValueTwoMore(s: string, t: string)
    requires forall i :: 0 <= i < |s| ==> IsDigit(s[i])
    requires |t| == 2 && IsDigit(t[0]) && IsDigit(t[1])
    ensures forall i :: 0 <= i < |s + t| ==> IsDigit((s + t)[i])
    ensures DigitsValue(s + t) == 100 * DigitsValue(s) + 10 * DigitOf(t[0]) + DigitOf(t[1])
  {
    var u := s + t;
    assert u[..|u| - 1] == s + [t[0]];
    assert (s + [t[0]])[..|s|] == s;
  }

  /** The digits of a number of cents: whole dollars, then two digits. */
  function CentsDigits(c: nat): (r: string)
    ensures forall i :: 0 <= i < |r| ==> IsDigit(r[i])
  {
    NatToString(c / 100) + Pad2(c % 100)
  }

  /** The digits printed for an amount, read back without the separators and
      the point, are its rounded number of cents. */
  lemma MoneyReadsBack(a: Amount)
    ensures var c := Cents(Abs(a.Value()));
      RemoveAll(Grouped(c / 100), ",") + Pad2(c % 100) == CentsDigits(c) && DigitsValue(CentsDigits(c)) == c
  {
    var c := Cents(Abs(a.Value()));
    GroupedDigits(c / 100);
    NatToStringValue(c / 100);
    DigitsValueTwoMore(NatToString(c / 100), Pad2(c % 100));
  }

  /** 1234.5 is shown as "$1,234.50". */
  lemma MoneyExampleCents()
    ensures Money(Fraction(1234.5)) == "$1,234.50"
  {
    assert Cents(1234.5) == 123450;
  }

  /** 10 is shown as "$10.00". */
  lemma MoneyExampleWhole()
    ensures Money(Whole(10)) == "$10.00"
  {
    assert Cents(10.0) == 1000;
  }

  /** 1000000 is shown as "$1,000,000.00". */
  lemma MoneyExampleMillion()
    ensures Money(Whole(1000000)) == "$1,000,000.00"
  {
    assert Cents(1000000.0) == 100000000;
    assert Grouped(1000) == "1,000";
  }

  // ---------------------------------------------------------------------
  // The bullets

  /** `sep.join` contains each of its parts. */
  lemma {:induction false} JoinContainsParts(parts: seq<string>, sep: string)
    ensures forall k | 0 <= k < |parts| :: Contains(Join(parts, sep), parts[k])
    decreases |parts|
  {
    if |parts| == 1 {
      assert Occurs(Join(parts, sep), parts[0], 0);
    } else if |parts| > 1 {
      var rest := parts[1..];
      var j := Join(parts, sep);
      JoinContainsParts(rest, sep);
      assert Occurs(j, parts[0], 0) by { assert j[..|parts[0]|] == parts[0]; }
      var off := |parts[0] + sep|;
      forall k | 1 <= k < |parts| ensures Contains(j, parts[k]) {
        assert rest[k - 1] == parts[k];
        var i: nat :| i <= |Join(rest, sep)| && Occurs(Join(rest, sep), parts[k], i);
        assert j[off + i..off + i + |parts[k]|] == Join(rest, sep)[i..i + |parts[k]|];
        assert Occurs(j, parts[k], off + i);
      }
    }
  }

  /** A string still contains what it contained after something is put in front. */
  lemma ContainsAfterPrefix(p: string, t: string, k: string)
    requires Contains(t, k)
    ensures Contains(p + t, k)
  {
    var i: nat :| i <= |t| && Occurs(t, k, i);
    assert (p + t)[|p| + i..|p| + i + |k|] == t[i..i + |k|];
    assert Occurs(p + t, k, |p| + i);
  }

  function MoneyList(amounts: seq<Amount>): (r: seq<string>)
    ensures |r| == |amounts|
    ensures forall k | 0 <= k < |amounts| :: r[k] == Money(amounts[k])
  {
    seq(|amounts|, k requires 0 <= k < |amounts| => Money(amounts[k]))
  }

  const SingleAmountPrefix: string := "Borrower mentioned payment amount of "
  const MultipleAmountsPrefix: string := "Borrower discussed multiple amounts: "

  /** `extract_payment_bullet`: none without amounts, a single-amount
      sentence for one, a list for several. */
  function PaymentBullet(e: Entities): (r: Option<string>)
    ensures r.None? <==> |e.amounts| == 0
    ensures |e.amounts| == 1 ==> r == Some(SingleAmountPrefix + Money(e.amounts[0]))
    ensures r.Some? ==> r.value != ""
    ensures |e.amounts| > 1 ==>
      (r.Some? && |r.value| > |MultipleAmountsPrefix| && r.value[..|MultipleAmountsPrefix|] == MultipleAmountsPrefix)
  {
    if |e.amounts| == 0 then None
    else if |e.amounts| == 1 then Some(SingleAmountPrefix + Money(e.amounts[0]))
    else
      JoinContainsParts(MoneyList(e.amounts), ", ");
      Some(MultipleAmountsPrefix + Join(MoneyList(e.amounts), ", "))
  }

  /** Every amount appears, formatted, in the payment bullet. */
  lemma PaymentBulletMentionsEachAmount(e: Entities, k: nat)
    requires k < |e.amounts|
    ensures PaymentBullet(e).Some? && Contains(PaymentBullet(e).value, Money(e.amounts[k]))
  {
    var m := Money(e.amounts[k]);
    if |e.amounts| == 1 {
      assert Occurs(m, m, 0);
      ContainsAfterPrefix(SingleAmountPrefix, m, m);
    } else {
      var j := Join(MoneyList(e.amounts), ", ");
      JoinContainsParts(MoneyList(e.amounts), ", ");
      assert MoneyList(e.amounts)[k] == m;
      ContainsAfterPrefix(MultipleAmountsPrefix, j, m);
    }
  }

  const GeneralInquiry: string := "General inquiry about account"

  /** The request templates keyed by intent, except "hardship". */
  const RequestTemplates: map<string, string> := map[
    "payment" := "Borrower requested to make a payment",
    "escrow" := "Asked about escrow account details",
    "dispute" := "Disputed charges or fees on account",
    "new-loan" := "Inquired about refinancing or new loan options"]

  const HardshipWithLoanMod: string := "Requested loan modification due to financial hardship"
  const HardshipWithoutLoanMod: string := "Mentioned financial difficulties affecting payments"

  predicate HasCode(rcs: seq<ReasonCode>, code: string) {
    exists k | 0 <= k < |rcs| :: rcs[k].code == code
  }

  /** `extract_request_bullet`: a template chosen by the intent; "hardship"
      depends on whether a loan modification was requested. */
  function RequestBullet(intent: string, rcs: seq<ReasonCode>): (r: string)
    ensures intent in RequestTemplates ==> r == RequestTemplates[intent]
    ensures intent == "hardship" ==> (r == HardshipWithLoanMod <==> HasCode(rcs, "LOAN_MOD_REQUEST"))
    ensures intent == "hardship" ==> (r == HardshipWithoutLoanMod <==> !HasCode(rcs, "LOAN_MOD_REQUEST"))
    ensures intent !in RequestTemplates && intent != "hardship" ==> r == GeneralInquiry
    ensures |r| > 0
  {
    if intent == "hardship" then
      if HasCode(rcs, "LOAN_MOD_REQUEST") then HardshipWithLoanMod else HardshipWithoutLoanMod
    else if intent in RequestTemplates then RequestTemplates[intent]
    else GeneralInquiry
  }

  /** The phrase each escalation code contributes to the escalation bullet. */
  const EscalationPhrases: map<string, string> := map[
    "HARDSHIP_LANGUAGE" := "financial hardship mentioned",
    "LOAN_MOD_REQUEST" := "loan modification requested",
    "BANKRUPTCY_OR_LAWYER" := "bankruptcy or legal counsel referenced",
    "LEGAL_THREAT" := "legal action threatened",
    "DISPUTE_FEE_OR_CHARGE" := "fee dispute",
    "SUPERVISOR_REQUEST" := "supervisor requested",
    "ABUSIVE_LANGUAGE" := "abusive language used",
    "THIRD_PARTY_CALLER" := "third party caller (unauthorized)"]

  /** The phrase for a code; a code without one is shown as it is. */
  function PhraseOf(code: string): string {
    if code in EscalationPhrases then EscalationPhrases[code] else code
  }

  /** The phrases of the flagged codes, in the order of the codes. */
  function FlaggedPhrases(rcs: seq<ReasonCode>): (r: seq<string>)
    ensures |r| == 0 <==> forall k | 0 <= k < |rcs| :: !rcs[k].isEscalation
    ensures forall k | 0 <= k < |rcs| && rcs[k].isEscalation :: PhraseOf(rcs[k].code) in r
    ensures forall p | p in r :: exists k | 0 <= k < |rcs| :: rcs[k].isEscalation && p == PhraseOf(rcs[k].code)
    decreases |rcs|
  {
    if |rcs| == 0 then []
    else
      var rest := FlaggedPhrases(rcs[1..]);
      assert forall k | 1 <= k < |rcs| :: rcs[1..][k - 1] == rcs[k];
      if rcs[0].isEscalation then [PhraseOf(rcs[0].code)] + rest else rest
  }

  const EscalationPrefix: string := "Call escalated due to: "

  /** `extract_escalation_bullet`: none without a flagged code, otherwise the
      prefix and the flagged codes' phrases joined by ", ". */
  function EscalationBullet(rcs: seq<ReasonCode>): (r: Option<string>)
    ensures r.None? <==> forall k | 0 <= k < |rcs| :: !rcs[k].isEscalation
    ensures r.Some? ==> r.value != ""
    ensures r.Some? ==> |r.value| >= |EscalationPrefix| && r.value[..|EscalationPrefix|] == EscalationPrefix
  {
    var phrases := FlaggedPhrases(rcs);
    if |phrases| == 0 then None else Some(EscalationPrefix + Join(phrases, ", "))
  }

  /** Every flagged code's phrase appears in the escalation bullet. */
  lemma EscalationBulletNamesEachCode(rcs: seq<ReasonCode>, k: nat)
    requires k < |rcs| && rcs[k].isEscalation
    ensures EscalationBullet(rcs).Some? && Contains(EscalationBullet(rcs).value, PhraseOf(rcs[k].code))
  {
    var phrases := FlaggedPhrases(rcs);
    var p := PhraseOf(rcs[k].code);
    var idx :| 0 <= idx < |phrases| && phrases[idx] == p;
    JoinContainsParts(phrases, ", ");
    ContainsAfterPrefix(EscalationPrefix, Join(phrases, ", "), p);
  }

  /** `format_bullet`: "" stays ""; otherwise the first character is upper
      case and the text ends with a single added '.' unless it has one. */
  function FormatBullet(s: string): (r: string)
    ensures r == "" <==> s == ""
    ensures s != "" ==> r[0] == UpperChar(s[0]) && r[|r| - 1] == '.'
    ensures s != "" ==> |r| >= |s| && r[1..|s|] == s[1..]
    ensures s != "" && s[|s| - 1] == '.' ==> |r| == |s|
    ensures s != "" && s[|s| - 1] != '.' ==> r == r[..|s|] + "."
  {
    if s == "" then ""
    else
      var c := [UpperChar(s[0])] + s[1..];
      if c[|c| - 1] == '.' then c else c + "."
  }

  /** Formatting a formatted bullet changes nothing. */
  lemma FormatBulletIdempotent(s: string)
    ensures FormatBullet(FormatBullet(s)) == FormatBullet(s)
  {
    if s != "" {
      var r := FormatBullet(s);
      assert UpperChar(r[0]) == r[0];
      assert [r[0]] + r[1..] == r;
    }
  }

  /** A bullet as `format_bullet` leaves it: non-empty, ending in '.'. */
  predicate Finished(b: string) {
    |b| > 0 && b[|b| - 1] == '.'
  }

  /** A bullet that may be missing, formatted when present. */
  function Optional(b: Option<string>): (r: seq<string>)
    requires b.Some? ==> b.value != ""
    ensures |r| == if b.Some? then 1 else 0
    ensures forall k | 0 <= k < |r| :: r[k] == FormatBullet(b.value) && Finished(r[k])
  {
    match b
    case None => []
    case Some(v) => [FormatBullet(v)]
  }

  predicate AllFinished(bs: seq<string>) {
    forall k | 0 <= k < |bs| :: Finished(bs[k])
  }

  lemma FinishedConcat(a: seq<string>, b: seq<string>)
    requires AllFinished(a) && AllFinished(b)
    ensures AllFinished(a + b)
  {
    assert forall k | |a| <= k < |a + b| :: (a + b)[k] == b[k - |a|];
  }

  /** The bullets in their order, each formatted: the request, then the
      payment and escalation bullets that are present. */
  function Assemble(request: string, payment: Option<string>, escalation: Option<string>): (r: seq<string>)
    requires request != ""
    requires payment.Some? ==> payment.value != ""
    requires escalation.Some? ==> escalation.value != ""
    ensures |r| == 1 + |Optional(payment)| + |Optional(escalation)|
    ensures r[0] == FormatBullet(request)
    ensures r[1..] == Optional(payment) + Optional(escalation)
    ensures AllFinished(r)
  {
    var first := [FormatBullet(request)];
    var tail := Optional(payment) + Optional(escalation);
    FinishedConcat(Optional(payment), Optional(escalation));
    FinishedConcat(first, tail);
    assert (first + tail)[1..] == tail;
    first + tail
  }

  /** `generate_bullets`: the request bullet, then the payment bullet when
      there are amounts, then the escalation bullet when a code is flagged,
      each through `format_bullet`. */
  function GenerateBullets(intent: string, e: Entities, rcs: seq<ReasonCode>): (r: seq<string>)
    ensures 1 <= |r| <= 3
    ensures r[0] == FormatBullet(RequestBullet(intent, rcs))
    ensures |r| == 1 + (if |e.amounts| > 0 then 1 else 0) +
      (if exists k | 0 <= k < |rcs| :: rcs[k].isEscalation then 1 else 0)
    ensures r[1..] == Optional(PaymentBullet(e)) + Optional(EscalationBullet(rcs))
    ensures AllFinished(r)
  {
    Assemble(RequestBullet(intent, rcs), PaymentBullet(e), EscalationBullet(rcs))
  }

  /** Formatting touches only the first character and the end, so what a
      bullet holds from its second character on is still there. */
  lemma FormatKeepsLater(s: string, k: string, i: nat)
    requires 1 <= i && Occurs(s, k, i)
    ensures Contains(FormatBullet(s), k)
  {
    var r := FormatBullet(s);
    assert r[1..|s|] == s[1..];
    forall m | 0 <= m < |k| ensures r[i + m] == k[m] {
      assert r[i + m] == r[1..|s|][i + m - 1] == s[1..][i + m - 1] == s[i + m];
      assert s[i + m] == s[i..i + |k|][m];
    }
    assert r[i..i + |k|] == k;
    assert Occurs(r, k, i);
  }

  /** So does what follows a non-empty opening. */
  lemma FormatKeepsTail(opening: string, t: string, k: string)
    requires |opening| > 0 && Contains(t, k)
    ensures Contains(FormatBullet(opening + t), k)
  {
    var s := opening + t;
    var i: nat :| i <= |t| && Occurs(t, k, i);
    var j := |opening| + i;
    assert s[j..j + |k|] == t[i..i + |k|];
    FormatKeepsLater(s, k, j);
  }

  /** The bullets name every amount, as money, in the second bullet, and end
      with a bullet that says the call was escalated and names the phrase of
      every flagged code. */
  lemma BulletsMentionAmountsAndCodes(intent: string, e: Entities, rcs: seq<ReasonCode>)
    ensures var r := GenerateBullets(intent, e, rcs);
      forall k | 0 <= k < |e.amounts| :: |r| > 1 && Contains(r[1], Money(e.amounts[k]))
    ensures var r := GenerateBullets(intent, e, rcs);
      forall k | 0 <= k < |rcs| && rcs[k].isEscalation ::
        Contains(r[|r| - 1], "escalated") && Contains(r[|r| - 1], PhraseOf(rcs[k].code))
  {
    BulletsMentionAmounts(intent, e, rcs);
    BulletsMentionCodes(intent, e, rcs);
  }

  lemma BulletsMentionAmounts(intent: string, e: Entities, rcs: seq<ReasonCode>)
    ensures var r := GenerateBullets(intent, e, rcs);
      forall k | 0 <= k < |e.amounts| :: |r| > 1 && Contains(r[1], Money(e.amounts[k]))
  {
    var r := GenerateBullets(intent, e, rcs);
    forall k | 0 <= k < |e.amounts| ensures |r| > 1 && Contains(r[1], Money(e.amounts[k])) {
      PaymentMentioned(e, k);
      assert r[1] == r[1..][0] == FormatBullet(PaymentBullet(e).value);
    }
  }

  lemma BulletsMentionCodes(intent: string, e: Entities, rcs: seq<ReasonCode>)
    ensures var r := GenerateBullets(intent, e, rcs);
      forall k | 0 <= k < |rcs| && rcs[k].isEscalation ::
        Contains(r[|r| - 1], "escalated") && Contains(r[|r| - 1], PhraseOf(rcs[k].code))
  {
    var r := GenerateBullets(intent, e, rcs);
    forall k | 0 <= k < |rcs| && rcs[k].isEscalation
      ensures Contains(r[|r| - 1], "escalated") && Contains(r[|r| - 1], PhraseOf(rcs[k].code))
    {
      EscalationMentioned(rcs, k);
      var tail := Optional(PaymentBullet(e)) + Optional(EscalationBullet(rcs));
      assert r[|r| - 1] == r[1..][|r| - 2] == tail[|tail| - 1] == FormatBullet(EscalationBullet(rcs).value);
    }
  }

  lemma PaymentMentioned(e: Entities, k: nat)
    requires k < |e.amounts|
    ensures PaymentBullet(e).Some? && Contains(FormatBullet(PaymentBullet(e).value), Money(e.amounts[k]))
  {
    var m := Money(e.amounts[k]);
    var v := PaymentBullet(e).value;
    if |e.amounts| == 1 {
      assert v == SingleAmountPrefix + m;
      assert Occurs(m, m, 0);
      FormatKeepsTail(SingleAmountPrefix, m, m);
    } else {
      var j := Join(MoneyList(e.amounts), ", ");
      assert v == MultipleAmountsPrefix + j;
      JoinContainsParts(MoneyList(e.amounts), ", ");
      assert MoneyList(e.amounts)[k] == m;
      FormatKeepsTail(MultipleAmountsPrefix, j, m);
    }
  }

  lemma EscalationMentioned(rcs: seq<ReasonCode>, k: nat)
    requires k < |rcs| && rcs[k].isEscalation
    ensures EscalationBullet(rcs).Some?
    ensures Contains(FormatBullet(EscalationBullet(rcs).value), "escalated")
    ensures Contains(FormatBullet(EscalationBullet(rcs).value), PhraseOf(rcs[k].code))
  {
    var phrases := FlaggedPhrases(rcs);
    var p := PhraseOf(rcs[k].code);
    var idx :| 0 <= idx < |phrases| && phrases[idx] == p;
    var j := Join(phrases, ", ");
    var v := EscalationBullet(rcs).value;
    assert v == EscalationPrefix + j;
    JoinContainsParts(phrases, ", ");
    FormatKeepsTail(EscalationPrefix, j, p);
    SaysEscalated(j);
  }

  lemma SaysEscalated(j: string)
    ensures Contains(FormatBullet(EscalationPrefix + j), "escalated")
  {
    var v := EscalationPrefix + j;
    assert Occurs(v, "escalated", 5) by {
      assert EscalationPrefix[5..14] == "escalated";
      assert v[5..14] == EscalationPrefix[5..14];
    }
    FormatKeepsLater(v, "escalated", 5);
  }
}
