/** The keyword rule engine of engines/ruleEngine.py: two fixed tables of
    phrases and single words, a score per reason code, and the reason codes
    whose score reaches the threshold. */
module RuleEngine {
  import opened Text
  import opened Records

  /** One table entry: a reason code, its phrases (2 points each) and its
      single words (1 point each). */
  datatype Rule = Rule(code: string, keywords: seq<string>, singleWords: seq<string>)

  const Hardship := Rule("HARDSHIP_LANGUAGE",
    ["lost my job", "unemployed", "can't afford", "can't pay", "financial hardship", "struggling",
     "behind on payments", "medical bills", "reduced income", "laid off"],
    ["unemployed", "struggling", "hardship"])

  const LoanMod := Rule("LOAN_MOD_REQUEST",
    ["loan modification", "modify my loan", "modify the loan", "payment plan", "forbearance",
     "restructure", "lower my payment", "reduce my payment"],
    ["forbearance"])

  const BankruptcyOrLawyer := Rule("BANKRUPTCY_OR_LAWYER",
    ["filed bankruptcy", "filing bankruptcy", "chapter 7", "chapter 13", "my lawyer", "my attorney",
     "retained counsel", "legal counsel"],
    ["bankruptcy", "lawyer", "attorney"])

  const LegalThreat := Rule("LEGAL_THREAT",
    ["sue you", "legal action", "attorney general", "consumer protection", "better business bureau",
     "lawsuit", "take legal action", "report you"],
    [])

  const DisputeFee := Rule("DISPUTE_FEE_OR_CHARGE",
    ["dispute this charge", "don't owe this", "unauthorized charge", "never agreed", "incorrect fee",
     "wrong fee", "late fee is wrong"],
    ["dispute"])

  const SupervisorRequest := Rule("SUPERVISOR_REQUEST",
    ["speak to supervisor", "talk to manager", "your supervisor", "escalate this", "someone above you",
     "your boss", "speak to someone else"],
    ["supervisor", "manager"])

  const AbusiveLanguage := Rule("ABUSIVE_LANGUAGE",
    ["you're an idiot", "you're stupid", "this is ridiculous"],
    ["idiot", "stupid", "ridiculous", "useless"])

  const ThirdPartyCaller := Rule("THIRD_PARTY_CALLER",
    ["calling for my husband", "calling for my wife", "my mom's account", "my son's loan",
     "power of attorney", "calling on behalf"],
    [])

  const PaymentIntent := Rule("PAYMENT_INTENT",
    ["make a payment", "pay my mortgage", "send a payment", "payment amount", "pay online",
     "what's my balance"],
    ["payment", "balance"])

  const EscrowQuestion := Rule("ESCROW_QUESTION",
    ["escrow account", "property taxes", "insurance", "escrow analysis", "escrow shortage",
     "impound account", "tax escrow"],
    ["escrow"])

  const NewLoanInquiry := Rule("NEW_LOAN_INQUIRY",
    ["refinance", "new loan", "apply for mortgage", "current rates", "pre-approval",
     "home equity loan", "rate quote"],
    ["refinance", "refinancing"])

  /** `_ESCALATION_RULES`, in the order `apply_rules` reports them. */
  const EscalationRules: seq<Rule> :=
    [Hardship, LoanMod, BankruptcyOrLawyer, LegalThreat, DisputeFee, SupervisorRequest,
     AbusiveLanguage, ThirdPartyCaller]

  /** `_NORMAL_RULES`, in the order `apply_rules` reports them. */
  const NormalRules: seq<Rule> := [PaymentIntent, EscrowQuestion, NewLoanInquiry]

  const Threshold: int := 2

  // ---------------------------------------------------------------------
  // Scores

  /** How many of the strings `ws` occur in `text`: each counts once however
      often it occurs, and a string listed twice counts twice. */
  function Hits(ws: seq<string>, text: string): nat
    decreases |ws|
  {
    if |ws| == 0 then 0
    else Hits(ws[..|ws| - 1], text) + (if Contains(text, ws[|ws| - 1]) then 1 else 0)
  }

  /** The score of a rule: 2 per phrase present, 1 per single word present. */
  function Score(r: Rule, text: string): nat {
    2 * Hits(r.keywords, text) + Hits(r.singleWords, text)
  }

  lemma HitsStep(ws: seq<string>, text: string, i: nat)
    requires i < |ws|
    ensures Hits(ws[..i + 1], text) == Hits(ws[..i], text) + (if Contains(text, ws[i]) then 1 else 0)
  {
    assert ws[..i + 1][..i] == ws[..i];
  }

  /** No string present, no hit; some string present, at least one. */
  lemma {:induction false} HitsPositive(ws: seq<string>, text: string)
    ensures Hits(ws, text) > 0 <==> exists k | 0 <= k < |ws| :: Contains(text, ws[k])
    ensures Hits(ws, text) <= |ws|
    decreases |ws|
  {
    if |ws| > 0 {
      var n := |ws| - 1;
      HitsPositive(ws[..n], text);
      if exists k | 0 <= k < |ws| :: Contains(text, ws[k]) {
        var k :| 0 <= k < |ws| && Contains(text, ws[k]);
        if k < n {
          assert ws[..n][k] == ws[k];
        }
      }
      if Hits(ws[..n], text) > 0 {
        var k :| 0 <= k < n && Contains(text, ws[..n][k]);
        assert ws[..n][k] == ws[k];
      }
    }
  }

  /** The strings present bound the count from below. */
  lemma {:induction false} HitsAtLeast(ws: seq<string>, text: string, a: nat, b: nat)
    requires a < b < |ws| && Contains(text, ws[a]) && Contains(text, ws[b])
    ensures Hits(ws, text) >= 2
    decreases |ws|
  {
    var n := |ws| - 1;
    if b < n {
      assert ws[..n][a] == ws[a] && ws[..n][b] == ws[b];
      HitsAtLeast(ws[..n], text, a, b);
    } else {
      assert ws[..n][a] == ws[a];
      HitsPositive(ws[..n], text);
    }
  }

  /** A rule fires exactly when one of its phrases is present or two of its
      single words are: one single word alone never reaches the threshold. */
  lemma FiresIff(r: Rule, text: string)
    ensures Score(r, text) >= Threshold <==>
      (exists k | 0 <= k < |r.keywords| :: Contains(text, r.keywords[k])) || Hits(r.singleWords, text) >= 2
  {
    HitsPositive(r.keywords, text);
  }

  // ---------------------------------------------------------------------
  // The reason codes of a table

  /** The reason code one rule contributes: none below the threshold. */
  function Reported(r: Rule, text: string, isEscalation: bool): seq<ReasonCode> {
    if Score(r, text) >= Threshold then [ReasonCode(r.code, isEscalation, Score(r, text))] else []
  }

  /** The reason codes of the rules that reach the threshold, in table order,
      each flagged `isEscalation` and carrying its score. */
  function Fired(rules: seq<Rule>, text: string, isEscalation: bool): seq<ReasonCode>
    decreases |rules|
  {
    if |rules| == 0 then []
    else
      var r := rules[|rules| - 1];
      Fired(rules[..|rules| - 1], text, isEscalation) + Reported(r, text, isEscalation)
  }

  lemma FiredStep(rules: seq<Rule>, text: string, isEscalation: bool, i: nat)
    requires i < |rules|
    ensures Fired(rules[..i + 1], text, isEscalation) == Fired(rules[..i], text, isEscalation) + Reported(rules[i], text, isEscalation)
  {
    assert rules[..i + 1][..i] == rules[..i];
  }

  /** The rule reaches the threshold and `rc` is the code it reports. */
  predicate Reports(r: Rule, text: string, isEscalation: bool, rc: ReasonCode) {
    Score(r, text) >= Threshold && rc == ReasonCode(r.code, isEscalation, Score(r, text))
  }

  /** A reason code is reported exactly when its rule reaches the threshold,
      with that rule's score and the table's flag. */
  lemma {:induction false} FiredMembers(rules: seq<Rule>, text: string, isEscalation: bool, rc: ReasonCode)
    ensures rc in Fired(rules, text, isEscalation) <==>
      exists i | 0 <= i < |rules| :: Reports(rules[i], text, isEscalation, rc)
    decreases |rules|
  {
    if |rules| > 0 {
      var n := |rules| - 1;
      var init := rules[..n];
      FiredMembers(init, text, isEscalation, rc);
      assert rc in Reported(rules[n], text, isEscalation) <==> Reports(rules[n], text, isEscalation, rc);
      if exists i | 0 <= i < |rules| :: Reports(rules[i], text, isEscalation, rc) {
        var i :| 0 <= i < |rules| && Reports(rules[i], text, isEscalation, rc);
        if i < n {
          assert Reports(init[i], text, isEscalation, rc);
        }
      }
      if rc in Fired(init, text, isEscalation) {
        var i :| 0 <= i < n && Reports(init[i], text, isEscalation, rc);
        assert Reports(rules[i], text, isEscalation, rc);
      }
    }
  }

  /** Reported codes keep table order: the code at an earlier position comes
      from an earlier rule. */
  lemma {:induction false} FiredInTableOrder(rules: seq<Rule>, text: string, isEscalation: bool, a: nat, b: nat)
    requires a < b < |Fired(rules, text, isEscalation)|
    ensures exists i, j | 0 <= i < j < |rules| ::
      Fired(rules, text, isEscalation)[a].code == rules[i].code &&
      Fired(rules, text, isEscalation)[b].code == rules[j].code
    decreases |rules|
  {
    var n := |rules| - 1;
    var init := Fired(rules[..n], text, isEscalation);
    var out := Fired(rules, text, isEscalation);
    assert out[a] == init[a];
    if b < |init| {
      assert out[b] == init[b];
      FiredInTableOrder(rules[..n], text, isEscalation, a, b);
      var i, j :| 0 <= i < j < n && init[a].code == rules[..n][i].code && init[b].code == rules[..n][j].code;
      assert rules[..n][i] == rules[i] && rules[..n][j] == rules[j];
    } else {
      assert out[b].code == rules[n].code;
      assert init[a] in init;
      FiredMembers(rules[..n], text, isEscalation, init[a]);
      var i :| 0 <= i < n && Reports(rules[..n][i], text, isEscalation, init[a]);
      assert rules[..n][i] == rules[i];
    }
  }

  /** `apply_rules` on a lower-cased text: the escalation table's codes, then
      the normal table's. */
  function RulesFor(text: string): seq<ReasonCode> {
    Fired(EscalationRules, text, true) + Fired(NormalRules, text, false)
  }

  // ---------------------------------------------------------------------
  // Properties of the two tables

  /** Both tables, escalation first: the order of `apply_rules`. */
  const AllRules: seq<Rule> := EscalationRules + NormalRules

  /** A table entry opens with a lower-case letter. */
  predicate EntryShaped(k: string) {
    |k| > 0 && IsLower(k[0])
  }

  predicate RuleShaped(r: Rule) {
    (forall k | k in r.keywords :: EntryShaped(k)) && (forall k | k in r.singleWords :: EntryShaped(k))
  }

  /** Every entry of both tables opens with a lower-case letter, and
      the eleven codes are distinct. */
  lemma TablesShaped()
    ensures forall i | 0 <= i < |AllRules| :: RuleShaped(AllRules[i])
    ensures forall i, j | 0 <= i < j < |AllRules| :: AllRules[i].code != AllRules[j].code
    ensures |AllRules| == 11 && AllRules[..8] == EscalationRules && AllRules[8..] == NormalRules
  {
    AllRulesShaped();
    CodesDistinct();
    assert AllRules[..8] == EscalationRules;
  }

  lemma AllRulesShaped()
    ensures forall i | 0 <= i < |AllRules| :: RuleShaped(AllRules[i])
  {
    EscalationRulesShaped();
    NormalRulesShaped();
  }

  lemma EscalationRulesShaped()
    ensures forall i | 0 <= i < |EscalationRules| :: RuleShaped(EscalationRules[i])
  {
    forall i | 0 <= i < |EscalationRules| ensures RuleShaped(EscalationRules[i]) {
      if i == 0 { HardshipShaped(); }
      else if i == 1 { LoanModShaped(); }
      else if i == 2 { BankruptcyOrLawyerShaped(); }
      else if i == 3 { LegalThreatShaped(); }
      else if i == 4 { DisputeFeeShaped(); }
      else if i == 5 { SupervisorRequestShaped(); }
      else if i == 6 { AbusiveLanguageShaped(); }
      else { ThirdPartyCallerShaped(); }
    }
  }

  lemma NormalRulesShaped()
    ensures forall i | 0 <= i < |NormalRules| :: RuleShaped(NormalRules[i])
  {
    PaymentIntentShaped();
    EscrowQuestionShaped();
    NewLoanInquiryShaped();
  }

  /** The eleven codes differ pairwise. */
  lemma CodesDistinct()
    ensures forall i, j | 0 <= i < j < |AllRules| :: AllRules[i].code != AllRules[j].code
  {
    var codes := seq(|AllRules|, i requires 0 <= i < |AllRules| => AllRules[i].code);
    assert codes == ["HARDSHIP_LANGUAGE", "LOAN_MOD_REQUEST", "BANKRUPTCY_OR_LAWYER", "LEGAL_THREAT",
      "DISPUTE_FEE_OR_CHARGE", "SUPERVISOR_REQUEST", "ABUSIVE_LANGUAGE", "THIRD_PARTY_CALLER",
      "PAYMENT_INTENT", "ESCROW_QUESTION", "NEW_LOAN_INQUIRY"];
  }

  lemma HardshipShaped() ensures RuleShaped(Hardship) {}

  lemma LoanModShaped() ensures RuleShaped(LoanMod) {}

  lemma BankruptcyOrLawyerShaped() ensures RuleShaped(BankruptcyOrLawyer) {}

  lemma LegalThreatShaped() ensures RuleShaped(LegalThreat) {}

  lemma DisputeFeeShaped() ensures RuleShaped(DisputeFee) {}

  lemma SupervisorRequestShaped() ensures RuleShaped(SupervisorRequest) {}

  lemma AbusiveLanguageShaped() ensures RuleShaped(AbusiveLanguage) {}

  lemma ThirdPartyCallerShaped() ensures RuleShaped(ThirdPartyCaller) {}

  lemma PaymentIntentShaped() ensures RuleShaped(PaymentIntent) {}

  lemma EscrowQuestionShaped() ensures RuleShaped(EscrowQuestion) {}

  lemma NewLoanInquiryShaped() ensures RuleShaped(NewLoanInquiry) {}

  /** A rule none of whose entries starts with a character of the text scores nothing. */
  lemma NothingPresent(r: Rule, text: string)
    requires RuleShaped(r) && forall i | 0 <= i < |text| :: !IsLower(text[i])
    ensures Score(r, text) == 0
  {
    forall k | 0 <= k < |r.keywords| ensures !Contains(text, r.keywords[k]) {
      assert r.keywords[k] in r.keywords;
      NotContainsWithoutFirstChar(text, r.keywords[k]);
    }
    forall k | 0 <= k < |r.singleWords| ensures !Contains(text, r.singleWords[k]) {
      assert r.singleWords[k] in r.singleWords;
      NotContainsWithoutFirstChar(text, r.singleWords[k]);
    }
    HitsPositive(r.keywords, text);
    HitsPositive(r.singleWords, text);
  }

  /** A table of rules that all score nothing reports nothing. */
  lemma FiredNothing(rules: seq<Rule>, text: string, isEscalation: bool)
    requires forall i | 0 <= i < |rules| :: Score(rules[i], text) == 0
    ensures Fired(rules, text, isEscalation) == []
  {
    var out := Fired(rules, text, isEscalation);
    if out != [] {
      assert out[0] in out;
      FiredMembers(rules, text, isEscalation, out[0]);
    }
  }

  /** Empty or whitespace-only text yields no reason code. */
  lemma BlankTextNoCodes(text: string)
    requires forall i | 0 <= i < |text| :: IsSpace(text[i])
    ensures RulesFor(text) == []
  {
    TablesShaped();
    forall i | 0 <= i < |AllRules| ensures Score(AllRules[i], text) == 0 {
      NothingPresent(AllRules[i], text);
    }
    FiredNothing(EscalationRules, text, true);
    FiredNothing(NormalRules, text, false);
  }

  /** Which codes `apply_rules` reports: an escalation-table code flagged true
      or a normal-table code flagged false, exactly when its rule reaches the
      threshold, with its score. */
  lemma RulesForMembers(text: string, rc: ReasonCode)
    ensures rc in RulesFor(text) <==>
      (exists i | 0 <= i < |EscalationRules| :: Reports(EscalationRules[i], text, true, rc)) ||
      (exists i | 0 <= i < |NormalRules| :: Reports(NormalRules[i], text, false, rc))
  {
    FiredMembers(EscalationRules, text, true, rc);
    FiredMembers(NormalRules, text, false, rc);
  }

  /** A code is flagged as escalating exactly when it comes from the
      escalation table: nothing propagates the flag to a normal code. */
  lemma FlagFollowsTable(text: string, rc: ReasonCode)
    requires rc in RulesFor(text)
    ensures rc.isEscalation <==> exists i | 0 <= i < 8 :: rc.code == AllRules[i].code
  {
    TablesShaped();
    RulesForMembers(text, rc);
    if exists i | 0 <= i < |NormalRules| :: Reports(NormalRules[i], text, false, rc) {
      var i :| 0 <= i < |NormalRules| && Reports(NormalRules[i], text, false, rc);
      assert rc.code == AllRules[8 + i].code;
    } else {
      var i :| 0 <= i < |EscalationRules| && Reports(EscalationRules[i], text, true, rc);
      assert rc.code == AllRules[i].code;
    }
  }

  /** The reported codes follow the order of the two tables, escalation table
      first: the code at an earlier position comes from an earlier rule. */
  lemma RulesForInOrder(text: string, a: nat, b: nat)
    requires a < b < |RulesFor(text)|
    ensures exists i, j | 0 <= i < j < |AllRules| ::
      RulesFor(text)[a].code == AllRules[i].code && RulesFor(text)[b].code == AllRules[j].code
  {
    TwoTablesInOrder(EscalationRules, NormalRules, text, a, b);
  }

  /** Running one table flagged and a second unflagged keeps the order of
      the two tables laid end to end. */
  lemma TwoTablesInOrder(first: seq<Rule>, second: seq<Rule>, text: string, a: nat, b: nat)
    requires a < b < |Fired(first, text, true) + Fired(second, text, false)|
    ensures exists i, j | 0 <= i < j < |first + second| ::
      (Fired(first, text, true) + Fired(second, text, false))[a].code == (first + second)[i].code &&
      (Fired(first, text, true) + Fired(second, text, false))[b].code == (first + second)[j].code
  {
    var esc := Fired(first, text, true);
    var nor := Fired(second, text, false);
    var out := esc + nor;
    var all := first + second;
    var i, j;
    if b < |esc| {
      assert out[a] == esc[a] && out[b] == esc[b];
      i, j := FirstTableWitness(first, second, text, a, b);
    } else if a >= |esc| {
      assert out[a] == nor[a - |esc|] && out[b] == nor[b - |esc|];
      i, j := SecondTableWitness(first, second, text, a - |esc|, b - |esc|);
    } else {
      assert out[a] == esc[a] && out[b] == nor[b - |esc|];
      i, j := AcrossTables(first, second, text, esc[a], nor[b - |esc|]);
    }
    assert out[a].code == all[i].code && out[b].code == all[j].code;
  }

  /** Two codes of the first table come from its rules in order. */
  lemma FirstTableWitness(first: seq<Rule>, second: seq<Rule>, text: string, a: nat, b: nat)
    returns (i: nat, j: nat)
    requires a < b < |Fired(first, text, true)|
    ensures i < j < |first + second|
    ensures Fired(first, text, true)[a].code == (first + second)[i].code
    ensures Fired(first, text, true)[b].code == (first + second)[j].code
  {
    var esc := Fired(first, text, true);
    FiredInTableOrder(first, text, true, a, b);
    i, j :| 0 <= i < j < |first| && esc[a].code == first[i].code && esc[b].code == first[j].code;
    assert (first + second)[i] == first[i] && (first + second)[j] == first[j];
  }

  /** Two codes of the second table come from its rules in order, which sit
      after the first table's. */
  lemma SecondTableWitness(first: seq<Rule>, second: seq<Rule>, text: string, a: nat, b: nat)
    returns (i: nat, j: nat)
    requires a < b < |Fired(second, text, false)|
    ensures i < j < |first + second|
    ensures Fired(second, text, false)[a].code == (first + second)[i].code
    ensures Fired(second, text, false)[b].code == (first + second)[j].code
  {
    var nor := Fired(second, text, false);
    FiredInTableOrder(second, text, false, a, b);
    var i', j' :| 0 <= i' < j' < |second| && nor[a].code == second[i'].code && nor[b].code == second[j'].code;
    i, j := |first| + i', |first| + j';
    assert (first + second)[i] == second[i'] && (first + second)[j] == second[j'];
  }

  /** A code of the first table and a code of the second come from rules in
      that order. */
  lemma AcrossTables(first: seq<Rule>, second: seq<Rule>, text: string, x: ReasonCode, y: ReasonCode)
    returns (i: nat, j: nat)
    requires x in Fired(first, text, true) && y in Fired(second, text, false)
    ensures i < j < |first + second|
    ensures x.code == (first + second)[i].code && y.code == (first + second)[j].code
  {
    FiredMembers(first, text, true, x);
    FiredMembers(second, text, false, y);
    i :| 0 <= i < |first| && Reports(first[i], text, true, x);
    var j' :| 0 <= j' < |second| && Reports(second[j'], text, false, y);
    j := |first| + j';
    assert (first + second)[i] == first[i] && (first + second)[j] == second[j'];
  }

  /** Each code appears at most once. */
  lemma RulesForDistinct(text: string, a: nat, b: nat)
    requires a < b < |RulesFor(text)|
    ensures RulesFor(text)[a].code != RulesFor(text)[b].code
  {
    TablesShaped();
    RulesForInOrder(text, a, b);
  }

  /** A rule whose only entry present is a single word that is not also a
      phrase stays below the threshold ("payment" or "dispute" alone). */
  lemma LoneWordNeverFires(r: Rule, text: string, j: nat)
    requires j < |r.singleWords|
    requires forall k | 0 <= k < |r.keywords| :: !Contains(text, r.keywords[k])
    requires forall k | 0 <= k < |r.singleWords| && k != j :: !Contains(text, r.singleWords[k])
    ensures Score(r, text) < Threshold
  {
    HitsPositive(r.keywords, text);
    HitsAtMostOne(r.singleWords, text, j);
  }

  /** At most one string present, at most one hit. */
  lemma {:induction false} HitsAtMostOne(ws: seq<string>, text: string, j: nat)
    requires forall k | 0 <= k < |ws| && k != j :: !Contains(text, ws[k])
    ensures Hits(ws, text) <= 1
    decreases |ws|
  {
    if |ws| > 0 {
      var n := |ws| - 1;
      if n == j {
        HitsPositive(ws[..n], text);
        forall k | 0 <= k < n ensures !Contains(text, ws[..n][k]) {
          assert ws[..n][k] == ws[k];
        }
      } else {
        forall k | 0 <= k < n && k != j ensures !Contains(text, ws[..n][k]) {
          assert ws[..n][k] == ws[k];
        }
        HitsAtMostOne(ws[..n], text, j);
      }
    }
  }

  /** Presence, not count: a text whose only hardship entry is "lost my job",
      however often it repeats, scores exactly 2. */
  lemma PresenceNotCount(text: string)
    requires Contains(text, "lost my job")
    requires forall k | 1 <= k < |Hardship.keywords| :: !Contains(text, Hardship.keywords[k])
    requires forall k | 0 <= k < |Hardship.singleWords| :: !Contains(text, Hardship.singleWords[k])
    ensures Score(Hardship, text) == 2
  {
    assert Hardship.keywords[0] == "lost my job";
    HitsAtMostOne(Hardship.keywords, text, 0);
    HitsPositive(Hardship.keywords, text);
    HitsPositive(Hardship.singleWords, text);
  }

  /** Overlapping phrases both count: "take legal action" also contains
      "legal action", so LEGAL_THREAT scores at least 4. */
  lemma TakeLegalActionScoresFour(text: string)
    requires Contains(text, "take legal action")
    ensures Score(LegalThreat, text) >= 4
  {
    var kw := LegalThreat.keywords;
    assert kw[1] == "legal action" && kw[6] == "take legal action";
    assert Occurs("take legal action", "legal action", 5);
    ContainsTransitive(text, "take legal action", "legal action");
    HitsAtLeast(kw, text, 1, 6);
  }

  /** A word listed both as a phrase and as a single word scores 3 on its own. */
  lemma SharedWordScoresThree(text: string)
    ensures Contains(text, "unemployed") ==> Score(Hardship, text) >= 3
    ensures Contains(text, "forbearance") ==> Score(LoanMod, text) >= 3
    ensures Contains(text, "refinance") ==> Score(NewLoanInquiry, text) >= 3
  {
    assert Hardship.keywords[1] == "unemployed" && Hardship.singleWords[0] == "unemployed";
    assert LoanMod.keywords[4] == "forbearance" && LoanMod.singleWords[0] == "forbearance";
    assert NewLoanInquiry.keywords[0] == "refinance" && NewLoanInquiry.singleWords[0] == "refinance";
    HitsPositive(Hardship.keywords, text);
    HitsPositive(Hardship.singleWords, text);
    HitsPositive(LoanMod.keywords, text);
    HitsPositive(LoanMod.singleWords, text);
    HitsPositive(NewLoanInquiry.keywords, text);
    HitsPositive(NewLoanInquiry.singleWords, text);
  }

  // ---------------------------------------------------------------------
  // The engine

  /** `ruleEngine`: built from a transcript, it scores the lower-cased
      normalised text against its two tables (the class attributes
      `_ESCALATION_RULES` and `_NORMAL_RULES`). */
  class RuleEngine {
    const transcript: Transcript
    const normalizedText: string
    const escalationRules: seq<Rule>
    const normalRules: seq<Rule>

    constructor(t: Transcript)
      ensures transcript == t && normalizedText == Lower(t.normalizedText)
      ensures escalationRules == EscalationRules && normalRules == NormalRules
    {
      transcript := t;
      normalizedText := Lower(t.normalizedText);
      escalationRules := EscalationRules;
      normalRules := NormalRules;
    }

    /** One `_check_*` scorer: 2 points per phrase and 1 per single word present. */
    method CheckRule(r: Rule) returns (points: int)
      ensures points == Score(r, normalizedText)
    {
      points := 0;
      var i := 0;
      while i < |r.keywords|
        invariant 0 <= i <= |r.keywords|
        invariant points == 2 * Hits(r.keywords[..i], normalizedText)
      {
        HitsStep(r.keywords, normalizedText, i);
        if Contains(normalizedText, r.keywords[i]) {
          points := points + 2;
        }
        i := i + 1;
      }
      assert r.keywords[..i] == r.keywords;
      var j := 0;
      while j < |r.singleWords|
        invariant 0 <= j <= |r.singleWords|
        invariant points == 2 * Hits(r.keywords, normalizedText) + Hits(r.singleWords[..j], normalizedText)
      {
        HitsStep(r.singleWords, normalizedText, j);
        if Contains(normalizedText, r.singleWords[j]) {
          points := points + 1;
        }
        j := j + 1;
      }
      assert r.singleWords[..j] == r.singleWords;
    }

    /** `if score >= threshold: reason_codes.append(reasonCode(code, flag, score))`
        for the `i`-th rule of a table: the codes reported so far grow by that rule's. */
    method Report(codes: seq<ReasonCode>, ghost rules: seq<Rule>, ghost i: nat, ghost isEscalation: bool,
                  code: string, flag: bool, score: int) returns (codes': seq<ReasonCode>)
      requires i < |rules| && codes == Fired(rules[..i], normalizedText, isEscalation)
      requires code == rules[i].code && flag == isEscalation && score == Score(rules[i], normalizedText)
      ensures codes' == Fired(rules[..i + 1], normalizedText, isEscalation)
    {
      codes' := codes;
      if score >= Threshold {
        codes' := codes' + [ReasonCode(code, flag, score)];
      }
      FiredStep(rules, normalizedText, isEscalation, i);
    }

    /** `apply_rules`: the eleven scorers run (`_check_hardship` ... `_check_new_loan_inquiry`,
        one per table entry), then each code that reaches the threshold is
        appended, escalation table first. The flag is `not es` for the
        escalation table and `es` for the normal one, and `es` is never set. */
    method ApplyRules() returns (reasonCodes: seq<ReasonCode>)
      requires |escalationRules| == 8 && |normalRules| == 3
      ensures reasonCodes == Fired(escalationRules, normalizedText, true) + Fired(normalRules, normalizedText, false)
    {
      var esc, nor := escalationRules, normalRules;
      var es := false;
      var hard := CheckRule(esc[0]);
      var loanMod := CheckRule(esc[1]);
      var banc := CheckRule(esc[2]);
      var legal := CheckRule(esc[3]);
      var dispFee := CheckRule(esc[4]);
      var superv := CheckRule(esc[5]);
      var abusive := CheckRule(esc[6]);
      var tpc := CheckRule(esc[7]);
      var pay := CheckRule(nor[0]);
      var escrow := CheckRule(nor[1]);
      var newLoan := CheckRule(nor[2]);

      reasonCodes := ReportEscalations(!es, hard, loanMod, banc, legal, dispFee, superv, abusive, tpc);
      var normal := ReportNormal(es, pay, escrow, newLoan);
      reasonCodes := reasonCodes + normal;
    }

    /** The eight escalation appends of `apply_rules`, in table order. */
    method ReportEscalations(flag: bool, hard: int, loanMod: int, banc: int, legal: int,
                             dispFee: int, superv: int, abusive: int, tpc: int)
      returns (codes: seq<ReasonCode>)
      requires |escalationRules| == 8 && flag
      requires hard == Score(escalationRules[0], normalizedText) && loanMod == Score(escalationRules[1], normalizedText)
      requires banc == Score(escalationRules[2], normalizedText) && legal == Score(escalationRules[3], normalizedText)
      requires dispFee == Score(escalationRules[4], normalizedText) && superv == Score(escalationRules[5], normalizedText)
      requires abusive == Score(escalationRules[6], normalizedText) && tpc == Score(escalationRules[7], normalizedText)
      ensures codes == Fired(escalationRules, normalizedText, true)
    {
      var esc := escalationRules;
      codes := [];
      assert esc[..0] == [];
      codes := Report(codes, esc, 0, true, esc[0].code, flag, hard);
      codes := Report(codes, esc, 1, true, esc[1].code, flag, loanMod);
      codes := Report(codes, esc, 2, true, esc[2].code, flag, banc);
      codes := Report(codes, esc, 3, true, esc[3].code, flag, legal);
      codes := Report(codes, esc, 4, true, esc[4].code, flag, dispFee);
      codes := Report(codes, esc, 5, true, esc[5].code, flag, superv);
      codes := Report(codes, esc, 6, true, esc[6].code, flag, abusive);
      codes := Report(codes, esc, 7, true, esc[7].code, flag, tpc);
      assert esc[..8] == esc;
    }

    /** The three normal appends of `apply_rules`, in table order. */
    method ReportNormal(flag: bool, pay: int, escrow: int, newLoan: int) returns (codes: seq<ReasonCode>)
      requires |normalRules| == 3 && !flag
      requires pay == Score(normalRules[0], normalizedText) && escrow == Score(normalRules[1], normalizedText)
      requires newLoan == Score(normalRules[2], normalizedText)
      ensures codes == Fired(normalRules, normalizedText, false)
    {
      var nor := normalRules;
      codes := [];
      assert nor[..0] == [];
      codes := Report(codes, nor, 0, false, nor[0].code, flag, pay);
      codes := Report(codes, nor, 1, false, nor[1].code, flag, escrow);
      codes := Report(codes, nor, 2, false, nor[2].code, flag, newLoan);
      assert nor[..3] == nor;
    }
  }
}
