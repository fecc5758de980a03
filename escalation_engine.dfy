/** engines/escalationEngine.py: decides from the reason codes' escalation
    flags whether a call is escalated and how risky it is. */
module EscalationEngine {
  import opened Records

  /** The number of codes flagged as escalations. */
  function EscalationCount(rcs: seq<ReasonCode>): (n: nat)
    ensures n <= |rcs|
    ensures n > 0 <==> exists k | 0 <= k < |rcs| :: rcs[k].isEscalation
    decreases |rcs|
  {
    if |rcs| == 0 then 0
    else
      var init := rcs[..|rcs| - 1];
      assert forall k | 0 <= k < |init| :: init[k] == rcs[k];
      EscalationCount(init) + (if rcs[|rcs| - 1].isEscalation then 1 else 0)
  }

  /** `_calculate_risk_level`'s thresholds on the escalation count. */
  function RiskFor(count: nat): (r: RiskLevel)
    ensures r == HIGH <==> count >= 2
    ensures r == MEDIUM <==> count == 1
    ensures r == LOW <==> count == 0
  {
    if count >= 2 then HIGH
    else if count >= 1 then MEDIUM
    else LOW
  }

  /** The dictionary `evaluate_escalation` returns. */
  datatype Evaluation = Evaluation(escalationNeeded: bool, riskLevel: RiskLevel)

  /** What `evaluate_escalation` computes from the codes. */
  function Evaluate(rcs: seq<ReasonCode>): (e: Evaluation)
    ensures e.riskLevel == HIGH ==> e.escalationNeeded
    ensures e.riskLevel == LOW <==> !e.escalationNeeded
  {
    var n := EscalationCount(rcs);
    Evaluation(n > 0, RiskFor(n))
  }

  /** `_count_escalation_reasons`: a counter loop over the codes. */
  method CountEscalationReasons(reasonCodes: seq<ReasonCode>) returns (escalationCount: nat)
    ensures escalationCount == EscalationCount(reasonCodes)
  {
    escalationCount := 0;
    var i := 0;
    while i < |reasonCodes|
      invariant 0 <= i <= |reasonCodes|
      invariant escalationCount == EscalationCount(reasonCodes[..i])
    {
      assert reasonCodes[..i + 1][..i] == reasonCodes[..i];
      if reasonCodes[i].isEscalation {
        escalationCount := escalationCount + 1;
      }
      i := i + 1;
    }
    assert reasonCodes[..i] == reasonCodes;
  }

  /** `_has_escalation_trigger`: returns at the first flagged code. */
  method HasEscalationTrigger(reasonCodes: seq<ReasonCode>) returns (found: bool)
    ensures found <==> exists k | 0 <= k < |reasonCodes| :: reasonCodes[k].isEscalation
  {
    var i := 0;
    while i < |reasonCodes|
      invariant 0 <= i <= |reasonCodes|
      invariant forall k | 0 <= k < i :: !reasonCodes[k].isEscalation
    {
      if reasonCodes[i].isEscalation {
        return true;
      }
      i := i + 1;
    }
    return false;
  }

  /** `_calculate_risk_level`. */
  method CalculateRiskLevel(reasonCodes: seq<ReasonCode>) returns (risk: RiskLevel)
    ensures risk == RiskFor(EscalationCount(reasonCodes))
  {
    var totalScore := CountEscalationReasons(reasonCodes);
    if totalScore >= 2 {
      risk := HIGH;
    } else if totalScore >= 1 {
      risk := MEDIUM;
    } else {
      risk := LOW;
    }
  }

  /** `evaluate_escalation`: the trigger test and the risk level side by side. */
  method EvaluateEscalation(reasonCodes: seq<ReasonCode>) returns (e: Evaluation)
    ensures e == Evaluate(reasonCodes)
  {
    var escalationNeeded := HasEscalationTrigger(reasonCodes);
    var riskLevel := CalculateRiskLevel(reasonCodes);
    e := Evaluation(escalationNeeded, riskLevel);
  }

  // ---------------------------------------------------------------------
  // Properties

  /** The count is the number of positions holding a flagged code. */
  lemma {:induction false} CountIsFlaggedPositions(rcs: seq<ReasonCode>)
    ensures EscalationCount(rcs) == |set k | 0 <= k < |rcs| && rcs[k].isEscalation|
    decreases |rcs|
  {
    if |rcs| > 0 {
      var n := |rcs| - 1;
      var init := rcs[..n];
      CountIsFlaggedPositions(init);
      var before := set k | 0 <= k < n && init[k].isEscalation;
      var after := set k | 0 <= k < |rcs| && rcs[k].isEscalation;
      assert before == set k | 0 <= k < n && rcs[k].isEscalation;
      if rcs[n].isEscalation {
        assert after == before + {n};
      } else {
        assert after == before;
      }
    }
  }

  /** Counting a concatenation adds the counts. */
  lemma {:induction false} CountAppend(a: seq<ReasonCode>, b: seq<ReasonCode>)
    ensures EscalationCount(a + b) == EscalationCount(a) + EscalationCount(b)
    decreases |b|
  {
    if |b| > 0 {
      var n := |b| - 1;
      assert (a + b)[..|a + b| - 1] == a + b[..n];
      CountAppend(a, b[..n]);
    } else {
      assert a + b == a;
    }
  }

  /** Only the flags matter: codes and scores do not change the outcome. */
  lemma {:induction false} OnlyFlagsMatter(a: seq<ReasonCode>, b: seq<ReasonCode>)
    requires |a| == |b|
    requires forall k | 0 <= k < |a| :: a[k].isEscalation == b[k].isEscalation
    ensures Evaluate(a) == Evaluate(b)
    ensures EscalationCount(a) == EscalationCount(b)
    decreases |a|
  {
    if |a| > 0 {
      var n := |a| - 1;
      OnlyFlagsMatter(a[..n], b[..n]);
    }
  }

  /** The order LOW < MEDIUM < HIGH. */
  function Rank(r: RiskLevel): nat {
    match r
    case LOW => 0
    case MEDIUM => 1
    case HIGH => 2
  }

  /** Adding a flagged code raises the risk by one level, capped at HIGH,
      and always escalates. */
  lemma FlaggedCodeRaisesRisk(rcs: seq<ReasonCode>, rc: ReasonCode)
    requires rc.isEscalation
    ensures Evaluate(rcs + [rc]).escalationNeeded
    ensures Rank(Evaluate(rcs + [rc]).riskLevel) == if Rank(Evaluate(rcs).riskLevel) == 2 then 2 else Rank(Evaluate(rcs).riskLevel) + 1
  {
    CountAppend(rcs, [rc]);
    assert [rc][..0] == [];
  }

  /** Appending any codes never lowers the risk. */
  lemma RiskMonotone(a: seq<ReasonCode>, b: seq<ReasonCode>)
    ensures Rank(Evaluate(a + b).riskLevel) >= Rank(Evaluate(a).riskLevel)
    ensures Evaluate(a).escalationNeeded ==> Evaluate(a + b).escalationNeeded
  {
    CountAppend(a, b);
  }

  /** No codes: no escalation, LOW risk. */
  lemma EmptyIsLow()
    ensures Evaluate([]) == Evaluation(false, LOW)
  {
  }

  /** One flagged and one unflagged code: escalated at MEDIUM risk. */
  lemma OneFlaggedIsMedium(flagged: ReasonCode, plain: ReasonCode)
    requires flagged.isEscalation && !plain.isEscalation
    ensures Evaluate([flagged, plain]) == Evaluation(true, MEDIUM)
    ensures Evaluate([plain, flagged]) == Evaluation(true, MEDIUM)
  {
    assert [flagged, plain] == [flagged] + [plain];
    assert [plain, flagged] == [plain] + [flagged];
    CountAppend([flagged], [plain]);
    CountAppend([plain], [flagged]);
    assert [flagged][..0] == [] && [plain][..0] == [];
  }
}
