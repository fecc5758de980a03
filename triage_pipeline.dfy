/** engines/triageResult.py, class `TriagePipeline`: reads a transcript file
    and runs it through the parser, the rule engine, the entity extractor,
    the intent classifier, the escalation engine and the summary generator.
    The file system is the map `files` from path to contents; a path missing
    from it is a file `open` cannot find. */
module TriagePipeline {
  import opened Text
  import opened Records
  import opened TranscriptParser
  import opened EntityExtractor
  import RuleEngine
  import opened IntentClassifier
  import opened EscalationEngine
  import opened SummaryGenerator

  /** The reason codes `apply_rules` reports for a raw transcript. */
  function CodesOf(raw: string): seq<ReasonCode> {
    RuleEngine.RulesFor(Lower(NormalizeText(raw)))
  }

  /** The result `process_single` builds from a file's contents: one list of
      reason codes feeds the classifier, the escalation engine, the summary
      and the result itself. */
  function Triage(raw: string): (r: TriageResult)
    ensures r.riskLevel in RiskNames
    ensures r.riskLevel == "HIGH" ==> r.escalate
    ensures r.riskLevel == "LOW" <==> !r.escalate
    ensures r.reasonCodes == CodesOf(raw)
    ensures r.entities == EntitiesOf(NormalizeText(raw))
    ensures 1 <= |r.summaryBullets| <= 3
  {
    var codes := CodesOf(raw);
    var entities := EntitiesOf(NormalizeText(raw));
    var intent := Intent(codes);
    var e := Evaluate(codes);
    TriageResult(intent, e.escalationNeeded, e.riskLevel.Name(), codes, entities,
      GenerateBullets(intent, entities, codes))
  }

  /** `process_single`: a missing file is reported before any engine runs. */
  method ProcessSingle(files: map<string, string>, filePath: string, timestamp: string)
    returns (r: Result<TriageResult, Error>)
    ensures r.Ok? <==> filePath in files
    ensures filePath !in files ==> r == Err(FileNotFound(filePath))
    ensures filePath in files ==> r == Ok(Triage(files[filePath]))
  {
    if filePath !in files {
      return Err(FileNotFound(filePath));
    }
    var rawText := files[filePath];
    var transcript := ParseTranscript(rawText, timestamp);
    var rules := new RuleEngine.RuleEngine(transcript);
    var reasonCodes := rules.ApplyRules();
    var entity := ExtractAllEntities(transcript);
    var intents := Classify(reasonCodes);
    var escalationResult := EvaluateEscalation(reasonCodes);
    var escalations := escalationResult.escalationNeeded;
    var riskLevel := escalationResult.riskLevel;
    var summary := GenerateBullets(intents, entity, reasonCodes);
    r := Ok(TriageResult(intents, escalations, riskLevel.Name(), reasonCodes, entity, summary));
  }

  /** The index of the first path that is not a file, if any. */
  function FirstMissing(files: map<string, string>, paths: seq<string>): (r: Option<nat>)
    ensures r.None? <==> forall k | 0 <= k < |paths| :: paths[k] in files
    ensures r.Some? ==> (r.value < |paths| && paths[r.value] !in files &&
      forall k | 0 <= k < r.value :: paths[k] in files)
    decreases |paths|
  {
    if |paths| == 0 then None
    else if paths[0] !in files then Some(0)
    else
      var rest := FirstMissing(files, paths[1..]);
      assert forall k | 1 <= k < |paths| :: paths[1..][k - 1] == paths[k];
      match rest
      case None => None
      case Some(i) => Some(i + 1)
  }

  /** A batch run with `process` applied to each file's contents: every
      result in path order, or the first missing file and no results. */
  function BatchOf<R>(files: map<string, string>, paths: seq<string>, process: string -> R): Result<seq<R>, Error> {
    match FirstMissing(files, paths)
    case Some(i) => Err(FileNotFound(paths[i]))
    case None => Ok(Prefix(files, paths, |paths|, process))
  }

  /** What `process_batch` returns. */
  function Batch(files: map<string, string>, paths: seq<string>): Result<seq<TriageResult>, Error> {
    BatchOf(files, paths, Triage)
  }

  /** `process_batch`: `process_single` on each path in turn, appending; the
      first exception ends the batch. */
  method ProcessBatch(files: map<string, string>, filePaths: seq<string>, timestamp: string)
    returns (r: Result<seq<TriageResult>, Error>)
    ensures r == Batch(files, filePaths)
  {
    var results: seq<TriageResult> := [];
    var i := 0;
    while i < |filePaths|
      invariant 0 <= i <= |filePaths|
      invariant forall k | 0 <= k < i :: filePaths[k] in files
      invariant results == Prefix(files, filePaths, i, Triage)
    {
      var single := ProcessSingle(files, filePaths[i], timestamp);
      if single.Err? {
        BatchFailsAt(files, filePaths, i, Triage);
        return Err(single.error);
      }
      PrefixStep(files, filePaths, i, Triage);
      results := results + [single.value];
      i := i + 1;
    }
    BatchSucceeds(files, filePaths, Triage);
    r := Ok(results);
  }

  /** The results of the first `i` files, in order. */
  function Prefix<R>(files: map<string, string>, paths: seq<string>, i: nat, process: string -> R): (r: seq<R>)
    requires i <= |paths| && forall k | 0 <= k < i :: paths[k] in files
    ensures |r| == i
    ensures forall k | 0 <= k < i :: r[k] == process(files[paths[k]])
  {
    if i == 0 then [] else Prefix(files, paths, i - 1, process) + [process(files[paths[i - 1]])]
  }

  lemma PrefixStep<R>(files: map<string, string>, paths: seq<string>, i: nat, process: string -> R)
    requires i < |paths| && forall k | 0 <= k <= i :: paths[k] in files
    ensures Prefix(files, paths, i + 1, process) == Prefix(files, paths, i, process) + [process(files[paths[i]])]
  {
  }

  lemma BatchFailsAt<R>(files: map<string, string>, paths: seq<string>, i: nat, process: string -> R)
    requires i < |paths| && paths[i] !in files
    requires forall k | 0 <= k < i :: paths[k] in files
    ensures BatchOf(files, paths, process) == Err(FileNotFound(paths[i]))
  {
    var m := FirstMissing(files, paths);
    assert m.Some?;
    assert m.value == i;
  }

  lemma BatchSucceeds<R>(files: map<string, string>, paths: seq<string>, process: string -> R)
    requires forall k | 0 <= k < |paths| :: paths[k] in files
    ensures BatchOf(files, paths, process) == Ok(Prefix(files, paths, |paths|, process))
  {
  }

  // ---------------------------------------------------------------------
  // Properties

  /** A batch succeeds exactly when every path is a file, and then holds one
      result per path in order; otherwise it fails on the first missing one. */
  lemma BatchAllOrNothing<R>(files: map<string, string>, paths: seq<string>, process: string -> R)
    ensures BatchOf(files, paths, process).Ok? <==> forall k | 0 <= k < |paths| :: paths[k] in files
    ensures BatchOf(files, paths, process).Ok? ==> (|BatchOf(files, paths, process).value| == |paths| &&
      forall k | 0 <= k < |paths| :: BatchOf(files, paths, process).value[k] == process(files[paths[k]]))
    ensures BatchOf(files, paths, process).Err? ==> exists k | 0 <= k < |paths| ::
      paths[k] !in files && BatchOf(files, paths, process).error == FileNotFound(paths[k]) &&
      forall j | 0 <= j < k :: paths[j] in files
  {
    match FirstMissing(files, paths)
    case Some(i) =>
    case None =>
  }

  /** No paths, no results. */
  lemma EmptyBatch<R>(files: map<string, string>, process: string -> R)
    ensures BatchOf(files, [], process) == Ok([])
  {
  }

  /** Each code in a result is flagged exactly when it comes from the
      escalation table: no flag is propagated to the normal table. */
  lemma FlagsFollowTables(raw: string, rc: ReasonCode)
    requires rc in Triage(raw).reasonCodes
    ensures rc.isEscalation <==> exists i | 0 <= i < 8 :: rc.code == RuleEngine.AllRules[i].code
  {
    RuleEngine.FlagFollowsTable(Lower(NormalizeText(raw)), rc);
  }

  /** The classifier only returns "NONE" or upper-case code names, never one
      of the intents the request templates are keyed by, so every pipeline
      result opens with the generic request bullet. */
  lemma RequestBulletIsGeneric(raw: string)
    ensures Triage(raw).summaryBullets[0] == FormatBullet(GeneralInquiry)
  {
    ClassifiedIntentGetsGenericBullet(CodesOf(raw));
  }

  lemma ClassifiedIntentGetsGenericBullet(rcs: seq<ReasonCode>)
    ensures RequestBullet(Intent(rcs), rcs) == GeneralInquiry
  {
    var intent := Intent(rcs);
    assert intent == NoIntent || intent in Recognised;
    assert intent !in RequestTemplates && intent != "hardship";
  }

  /** A transcript that only triggers HARDSHIP_LANGUAGE is escalated at MEDIUM
      risk, and its intent is "NONE": the classifier does not recognise that
      code name. */
  lemma HardshipOnly(raw: string, score: int)
    requires CodesOf(raw) == [ReasonCode("HARDSHIP_LANGUAGE", true, score)]
    ensures Triage(raw).escalate && Triage(raw).riskLevel == "MEDIUM"
    ensures Triage(raw).intent == NoIntent
  {
    HardshipCodeOnly(CodesOf(raw), score);
  }

  /** The engines' view of that single code. */
  lemma HardshipCodeOnly(codes: seq<ReasonCode>, score: int)
    requires codes == [ReasonCode("HARDSHIP_LANGUAGE", true, score)]
    ensures Evaluate(codes).escalationNeeded && Evaluate(codes).riskLevel == MEDIUM
    ensures Intent(codes) == NoIntent
  {
    assert codes[..0] == [];
    assert EscalationCount(codes) == 1;
    assert !Counted(codes[0]);
  }

  /** Blank input, including a file of only line breaks and tabs, gives no
      codes, no escalation and LOW risk. */
  lemma BlankTranscript(raw: string)
    requires forall i | 0 <= i < |raw| :: IsSpace(raw[i])
    ensures Triage(raw).reasonCodes == [] && !Triage(raw).escalate && Triage(raw).riskLevel == "LOW"
    ensures Triage(raw).intent == NoIntent
  {
    assert NormalizeText(raw) == "";
    assert Lower("") == "";
    RuleEngine.BlankTextNoCodes("");
  }
}
