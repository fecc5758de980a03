/** engines/intentClassifier.py: picks the intent of a call as the code of the
    highest-scoring recognised reason code, or "NONE". */
module IntentClassifier {
  import opened Records

  /** The eleven names the `if`/`elif` chain of `classify` compares against.
      Two of them, "HARDSHIP" and "DISPUTE_FEE", are not names the rule
      engine ever emits. */
  const Recognised: set<string> := {
    "HARDSHIP", "LOAN_MOD_REQUEST", "BANKRUPTCY_OR_LAWYER", "LEGAL_THREAT",
    "DISPUTE_FEE", "SUPERVISOR_REQUEST", "ABUSIVE_LANGUAGE", "THIRD_PARTY_CALLER",
    "PAYMENT_INTENT", "ESCROW_QUESTION", "NEW_LOAN_INQUIRY"}

  const NoIntent: string := "NONE"

  /** A reason code that one branch of the chain handles. */
  predicate Counted(rc: ReasonCode) {
    rc.code in Recognised
  }

  /** The position `classify` ends up pointing at: the first recognised code
      whose score is the strict maximum, provided that maximum is positive. */
  function Leader(rcs: seq<ReasonCode>): (r: Option<nat>)
    ensures r.None? <==> forall j | 0 <= j < |rcs| && Counted(rcs[j]) :: rcs[j].score <= 0
    ensures r.Some? ==> r.value < |rcs| && Counted(rcs[r.value]) && rcs[r.value].score > 0
    ensures r.Some? ==> forall j | 0 <= j < |rcs| && Counted(rcs[j]) :: rcs[j].score <= rcs[r.value].score
    ensures r.Some? ==> forall j | 0 <= j < r.value && Counted(rcs[j]) :: rcs[j].score < rcs[r.value].score
    decreases |rcs|
  {
    if |rcs| == 0 then None
    else
      var n := |rcs| - 1;
      var init := rcs[..n];
      assert forall j | 0 <= j < n :: init[j] == rcs[j];
      var prev := Leader(init);
      var best := if prev.Some? then rcs[prev.value].score else 0;
      if Counted(rcs[n]) && rcs[n].score > best then Some(n) else prev
  }

  /** The score `max` holds once the codes have been scanned. */
  function BestScore(rcs: seq<ReasonCode>): int {
    match Leader(rcs)
    case None => 0
    case Some(k) => rcs[k].score
  }

  /** What `classify` returns. */
  function Intent(rcs: seq<ReasonCode>): (intent: string)
    ensures intent == NoIntent || intent in Recognised
    ensures intent == NoIntent <==> forall j | 0 <= j < |rcs| && Counted(rcs[j]) :: rcs[j].score <= 0
  {
    match Leader(rcs)
    case None => NoIntent
    case Some(k) => rcs[k].code
  }

  /** `classify`: one pass that keeps the best score seen and its code; a
      later code replaces it only with a strictly greater score. */
  method Classify(reasonCodes: seq<ReasonCode>) returns (maxCode: string)
    ensures maxCode == Intent(reasonCodes)
  {
    var max := 0;
    maxCode := NoIntent;
    var i := 0;
    while i < |reasonCodes|
      invariant 0 <= i <= |reasonCodes|
      invariant maxCode == Intent(reasonCodes[..i]) && max == BestScore(reasonCodes[..i])
    {
      var rc := reasonCodes[i];
      assert reasonCodes[..i + 1][..i] == reasonCodes[..i];
      if rc.code in Recognised {
        if rc.score > max {
          max := rc.score;
          maxCode := rc.code;
        }
      }
      i := i + 1;
    }
    assert reasonCodes[..i] == reasonCodes;
  }

  // ---------------------------------------------------------------------
  // Properties

  /** The intent is "NONE" or the code of a recognised element of the input
      with a positive score that no recognised element exceeds, and every
      recognised element before it scores strictly less. */
  lemma IntentIsFirstMaximum(rcs: seq<ReasonCode>)
    ensures Intent(rcs) != NoIntent ==> exists k | 0 <= k < |rcs| ::
      rcs[k].code == Intent(rcs) && Counted(rcs[k]) && rcs[k].score > 0 &&
      (forall j | 0 <= j < |rcs| && Counted(rcs[j]) :: rcs[j].score <= rcs[k].score) &&
      (forall j | 0 <= j < k && Counted(rcs[j]) :: rcs[j].score < rcs[k].score)
  {
    if Leader(rcs).Some? {
      var k := Leader(rcs).value;
      assert rcs[k].code == Intent(rcs);
    }
  }

  /** Only the first and the maximal recognised element can be chosen: two
      different positions cannot both satisfy the first-maximum property. */
  lemma FirstMaximumUnique(rcs: seq<ReasonCode>, k: nat, k': nat)
    requires k < |rcs| && k' < |rcs| && Counted(rcs[k]) && Counted(rcs[k'])
    requires forall j | 0 <= j < |rcs| && Counted(rcs[j]) :: rcs[j].score <= rcs[k].score
    requires forall j | 0 <= j < k && Counted(rcs[j]) :: rcs[j].score < rcs[k].score
    requires forall j | 0 <= j < |rcs| && Counted(rcs[j]) :: rcs[j].score <= rcs[k'].score
    requires forall j | 0 <= j < k' && Counted(rcs[j]) :: rcs[j].score < rcs[k'].score
    ensures k == k'
  {
  }

  /** A code the chain does not recognise leaves the result unchanged,
      whatever its score. */
  lemma UnrecognisedIgnored(rcs: seq<ReasonCode>, rc: ReasonCode)
    requires !Counted(rc)
    ensures Intent(rcs + [rc]) == Intent(rcs)
  {
    var all := rcs + [rc];
    assert all[..|rcs|] == rcs;
  }

  /** The rule engine's HARDSHIP_LANGUAGE and DISPUTE_FEE_OR_CHARGE never
      become the intent, because the chain compares against other names. */
  lemma RuleEngineNamesNeverChosen(rcs: seq<ReasonCode>)
    ensures Intent(rcs) != "HARDSHIP_LANGUAGE" && Intent(rcs) != "DISPUTE_FEE_OR_CHARGE"
  {
  }

  /** An unrecognised code with score 10 loses to PAYMENT_INTENT with score 1. */
  lemma UnknownCodeExample()
    ensures Intent([ReasonCode("UNKNOWN_CODE", false, 10), ReasonCode("PAYMENT_INTENT", false, 1)]) == "PAYMENT_INTENT"
  {
    var rcs := [ReasonCode("UNKNOWN_CODE", false, 10), ReasonCode("PAYMENT_INTENT", false, 1)];
    assert !Counted(rcs[0]) && Counted(rcs[1]);
    assert rcs[..1] == [rcs[0]];
  }

  /** Equal scores: the earlier code wins. */
  lemma TieGoesToEarlier(a: ReasonCode, b: ReasonCode)
    requires Counted(a) && Counted(b) && a.score == b.score > 0
    ensures Intent([a, b]) == a.code
  {
    var rcs := [a, b];
    assert rcs[..1] == [a];
    assert [a][..0] == [];
    assert Leader([a]) == Some(0);
    assert Leader(rcs) == Some(0);
  }
}
