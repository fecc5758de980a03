# Transcript triage linter — a Dafny model

The linter reads call-centre transcripts about mortgages and triages each one.
For every transcript it:

1. normalises the text and collects the speaker labels;
2. scores two fixed keyword tables and reports the reason codes whose score reaches 2;
3. extracts money amounts, dates, phone numbers and loan or account numbers;
4. picks an intent from the reason codes;
5. decides whether the call needs escalating and how risky it is;
6. writes one to three summary bullets.

Over a batch of results, the batch reporter counts reason codes and computes the escalation rate.
It also ranks intents, counts five "failure patterns" and renders a CSV report.

The model has one module per engine file:

| module | file | source |
|---|---|---|
| `TranscriptParser` | transcript_parser.dfy | engines/transcriptParser.py |
| `EntityExtractor` | entity_extractor.dfy | engines/entityExtractor.py |
| `EntityPatterns` | entity_patterns.dfy | the regular expressions of engines/entityExtractor.py |
| `AmountFacts`, `EntityFacts` | amount_facts.dfy, entity_facts.dfy | what those patterns and `to_number` guarantee |
| `AmountExamples` | amount_examples.dfy | the amounts testing/fixtures/test_entity_extractor.py expects `to_number` to give single hits |
| `RuleEngine` | rule_engine.dfy | engines/ruleEngine.py |
| `IntentClassifier` | intent_classifier.dfy | engines/intentClassifier.py |
| `EscalationEngine` | escalation_engine.dfy | engines/escalationEngine.py |
| `SummaryGenerator` | summary_generator.dfy | engines/summaryGenerator.py and the bullet API its tests fix |
| `TriagePipeline` | triage_pipeline.dfy | engines/triageResult.py |
| `BatchReporter` | batch_reporter.dfy | engines/batchReporter.py |

Three modules are shared:

- `Records` holds the data classes of Data_Classes/ as datatypes.
- `Text` holds the ASCII string primitives Python provides: `lower`, `split`, `strip`, `join`, `in` and integer formatting.
- `Scan` holds a small regular-expression toolkit.
  - A pattern is a function from a position to the candidate end positions, listed in the order Python's backtracking tries them.
  - `FindIter` is `re.finditer`: leftmost matches that do not overlap, scanned left to right.

Code that works step by step becomes a method with loops, proved against a function that states the result.

- `RuleEngine` is a class: its fields are the transcript, the lowered text and the two tables, and its methods score the rules one by one.
- The parser's speaker loop, `to_number`, the amount, date and loan loops, and the de-duplication are methods.
- The escalation loops, the classifier's loop, `process_batch` and every counting loop of the batch reporter are methods too.

Functions and lemmas then state what the source promises about those results.

Two things are parameters:

- The file system is a map from path to contents.
- The wall-clock timestamp is an opaque string.

## Model

| member | source | states |
|---|---|---|
| `TranscriptParser.NormalizeText` | engines/transcriptParser.py:11-14 | the normalised text is lower case, has single spaces between words and no leading or trailing space; it is empty exactly when the raw text is all whitespace |
| `TranscriptParser.NormalizeKeepsWords` | engines/transcriptParser.py:13 | the words of the normalised text are exactly the whitespace-separated words of the lowercased raw text |
| `TranscriptParser.NormalizeIdempotent` | engines/transcriptParser.py:11-14 | normalising normalised text changes nothing |
| `TranscriptParser.LowerKeepsSpaces` | engines/transcriptParser.py:13 | lowercasing keeps whitespace where it was, so it does not move word boundaries |
| `TranscriptParser.LowerWordsAreLowerWords` | engines/transcriptParser.py:13 | every word split from lowercased text is a non-empty, space-free, lower-case word |
| `TranscriptParser.JoinWordsNormalized` | engines/transcriptParser.py:13 | joining lower-case words with single spaces gives normalised text |
| `TranscriptParser.JoinEmpty` | engines/transcriptParser.py:13 | the join of words is empty only when there are no words |
| `TranscriptParser.GetSpeakers` | engines/transcriptParser.py:17-25 | the loop over the '\n'-separated lines collects exactly the speaker set: the stripped text before the first ':' of each line that has a ':' |
| `TranscriptParser.LineSpeakersMembership` | engines/transcriptParser.py:19-24 | a label is a speaker exactly when some line contains ':' and yields that label |
| `TranscriptParser.LabelledMembership` | engines/transcriptParser.py:21-24 | the set built by the loop holds exactly the labels of the lines that carry one |
| `TranscriptParser.SpeakerBeforeFirstColon` | engines/transcriptParser.py:23 | for "tag:rest" with no ':' in the tag, the speaker is the stripped tag, so "Agent: note: x" gives "Agent" |
| `TranscriptParser.SpeakerOfShape` | engines/transcriptParser.py:23 | a label has no ':', uses only characters of its line and has no surrounding whitespace |
| `TranscriptParser.SpeakerShape` | engines/transcriptParser.py:19-24 | every speaker is free of ':' and '\n' and has no surrounding whitespace |
| `TranscriptParser.EmptyLabelKept` | engines/transcriptParser.py:22-24 | a line starting with ':' contributes the empty label "" |
| `TranscriptParser.NoColonNoSpeakers` | engines/transcriptParser.py:22 | text without ':' has no speakers |
| `TranscriptParser.ParseTranscript` | engines/transcriptParser.py:27-31 | the record keeps the raw text unchanged, with its normalised text, its speakers and the given timestamp |
| `Text.Lower` | engines/transcriptParser.py:13 | `str.lower` on ASCII: same length, each character lowered |
| `Text.SplitJoin` | engines/transcriptParser.py:20 | `split('\n')` loses nothing: joining the pieces back gives the text |
| `Text.SplitPieces` | engines/transcriptParser.py:20 | no piece of a split contains the separator, and each piece uses only the text's characters |
| `Text.SplitFirst` | engines/transcriptParser.py:23 | the first piece of `split(':')` is the text before the first ':' |
| `Text.StripShape` | engines/transcriptParser.py:23 | `strip()` removes whitespace runs at both ends and nothing else |
| `Text.WordsAreWords` | engines/transcriptParser.py:13 | `split()` gives non-empty words without whitespace, made of the text's characters |
| `Text.WordsEmpty` | engines/transcriptParser.py:13 | `split()` gives no words exactly when the text is all whitespace |
| `Text.WordsOfJoin` | engines/transcriptParser.py:13 | splitting words joined by single spaces gives the words back |
| `Text.NatToStringValue` | engines/batchReporter.py:107 | the decimal rendering of a count reads back as that count |
| `EntityExtractor.Unique` | engines/entityExtractor.py:96-104 | the de-duplicated list holds exactly the values of the input |
| `EntityExtractor.UniqueIsFirstOccurrences` | engines/entityExtractor.py:96-104 | de-duplication keeps the first occurrence of each value, in input order, with no repeats |
| `EntityExtractor.Dedup` | engines/entityExtractor.py:153-160 | the `seen`-set loop computes the first-occurrence de-duplication |
| `EntityExtractor.WordMatchAt` | engines/entityExtractor.py:55-65 | a magnitude word is found at a position only if it occurs there on word boundaries, and "none" means none of the words does |
| `EntityExtractor.SearchWord` | engines/entityExtractor.py:55-65 | `re.search(r"\bword\b")`: a word is reported only if it occurs on word boundaries somewhere after the start, and "none" means no listed word does |
| `EntityExtractor.ParseDecimal` | engines/entityExtractor.py:76-79 | on the strings a money or context hit leaves after cleaning, `float(s)` succeeds exactly on plain decimal numerals and anything else takes the ValueError path |
| `EntityExtractor.NumberOf` | engines/entityExtractor.py:47-88 | `to_number` yields either nothing or an amount in canonical form, an integer when whole |
| `EntityExtractor.TakeMagnitude` | engines/entityExtractor.py:53-69 | the if/elif chain picks billion or bn, then million, then thousand, then a standalone k, m or b, and removes the marker |
| `EntityExtractor.ToNumber` | engines/entityExtractor.py:47-88 | the step-by-step `to_number` computes `NumberOf` |
| `EntityExtractor.FilterMapValues` | engines/entityExtractor.py:90-94 | each value kept by the `nums` loop comes from some hit, and there are no more values than hits |
| `EntityExtractor.ParsedCanonical` | engines/entityExtractor.py:86-88 | every parsed amount is canonical, so equal values are equal amounts when de-duplicated |
| `EntityExtractor.ExtractAmounts` | engines/entityExtractor.py:43-104 | the hit, parse and de-duplication loops compute `Amounts`: money hits first, then context hits, parsed, de-duplicated |
| `EntityExtractor.PatternMatchesOf` | engines/entityExtractor.py:116-117 | each date pattern contributes its own `finditer` matches |
| `EntityExtractor.ExtractDates` | engines/entityExtractor.py:106-118 | the loop over the six date patterns computes `Dates` |
| `EntityExtractor.ExtractLoanNumbers` | engines/entityExtractor.py:132-160 | the loops over both loan patterns and the de-duplication compute `LoanNumbers` |
| `EntityExtractor.ExtractAllEntities` | engines/entityExtractor.py:166-174 | all four extractors run on the transcript's normalised text |
| `EntityFacts.AmountsDeduplicated` | engines/entityExtractor.py:90-104 | the amounts are the first occurrences of the parsed hits, pairwise different in value, and each comes from a hit |
| `EntityFacts.DedupParsed` | engines/entityExtractor.py:96-104 | de-duplicating parsed hits keeps first occurrences, pairwise different in value, each from a hit |
| `EntityFacts.AmountHitValues` | engines/entityExtractor.py:81-84 | a money hit is never rescaled by the shorthand; a context hit is a bare numeral and is read in thousands |
| `EntityFacts.LoanNumbersShape` | engines/entityExtractor.py:140-160 | every loan number is "LN-" plus 4 to 15 digits or a group of 4 to 20 digits, and none repeats |
| `EntityFacts.LoanHits` | engines/entityExtractor.py:145-151 | loan hits are the "LN-" matches followed by the phrase matches |
| `EntityFacts.LoanTagShape` | engines/entityExtractor.py:141 | an "LN-" match is "LN-" followed by 4 to 15 digits |
| `EntityFacts.LoanTagHit` | engines/entityExtractor.py:141 | the text a single "LN-" hit covers has that shape |
| `EntityFacts.LoanPhraseShape` | engines/entityExtractor.py:142 | the captured group of a loan phrase is 4 to 20 digits, leading zeros kept |
| `EntityFacts.LoanPhraseHit` | engines/entityExtractor.py:142 | the group a single phrase hit captures is 4 to 20 digits |
| `EntityFacts.LoanDigitsEnd` | engines/entityExtractor.py:142 | each end the digit group can take gives 4 to 20 digits |
| `EntityFacts.DatesInPatternOrder` | engines/entityExtractor.py:107-118 | dates are the six patterns' matches concatenated in list order, never de-duplicated |
| `EntityFacts.PhoneShape` | engines/entityExtractor.py:121-129 | a phone match has at least 10 characters and ends in 4 digits |
| `EntityFacts.PhoneHit` | engines/entityExtractor.py:123-126 | a phone hit spans at least 10 characters and ends in 4 digits |
| `EntityFacts.PhoneMatch` | engines/entityExtractor.py:121-129 | the phone matcher only reports hits of that shape |
| `EntityFacts.PhoneEndShape` | engines/entityExtractor.py:123-126 | every end the phone pattern can reach lies 10 or more characters on and follows 4 digits |
| `EntityFacts.AreaCodeLength` | engines/entityExtractor.py:124 | the area code takes at least 3 characters |
| `EntityFacts.SubscriberLength` | engines/entityExtractor.py:125-126 | the 3+4 digit subscriber part takes at least 7 characters and ends in 4 digits |
| `EntityFacts.SubscriberTail` | engines/entityExtractor.py:125-126 | the last group is 4 digits after an optional separator |
| `EntityFacts.NoEntitiesInEmptyText` | engines/entityExtractor.py:166-174 | empty text has no entities of any kind |
| `EntityFacts.NoAmountsInEmptyText` | engines/entityExtractor.py:13-104 | empty text has no amounts |
| `EntityFacts.NoDatesInEmptyText` | engines/entityExtractor.py:106-118 | empty text has no dates |
| `EntityFacts.NoLoanNumbersInEmptyText` | engines/entityExtractor.py:132-160 | empty text has no loan numbers |
| `AmountFacts.NumShape` | engines/entityExtractor.py:23 | everything the number pattern matches is a numeral: digits in comma groups of three or a plain run, with an optional fraction |
| `AmountFacts.CommaGroupsShape` | engines/entityExtractor.py:23 | the repeated ",ddd" groups consist of commas each followed by three digits |
| `AmountFacts.GroupedIntShape` | engines/entityExtractor.py:23 | a 1-3 digit head followed by comma groups is a numeral's integer part |
| `AmountFacts.IntPartShape` | engines/entityExtractor.py:23 | both alternatives of the integer part give an integer numeral |
| `AmountFacts.FractionPartShape` | engines/entityExtractor.py:23 | the optional fraction is a '.' followed by digits |
| `AmountFacts.NumeralValue` | engines/entityExtractor.py:47-88 | a bare numeral has no marker and no magnitude, so it is read with its commas removed and scaled by the shorthand |
| `AmountFacts.ContextHitIsNumeral` | engines/entityExtractor.py:41 | the group captured by the context pattern is a bare numeral |
| `AmountFacts.ContextAmountInThousands` | engines/entityExtractor.py:41-84 | a context hit is valued by the shorthand: ×1000 when in [100, 10000) |
| `AmountFacts.ShorthandExample` | engines/entityExtractor.py:82-84 | "850" after "mortgage amount is" gives 850000 |
| `AmountFacts.NoLetterNoMagnitude` | engines/entityExtractor.py:53-69 | text without letters gets no magnitude and stays as it is |
| `AmountFacts.NoLetterNoWord` | engines/entityExtractor.py:55-65 | no magnitude word is found in text without letters |
| `AmountFacts.NumeralHasNoMarker` | engines/entityExtractor.py:82 | a numeral contains none of the marker strings |
| `AmountFacts.NumeralHasNoCurrency` | engines/entityExtractor.py:48-51 | stripping currency tokens leaves a numeral unchanged |
| `AmountFacts.NumeralLowerCase` | engines/entityExtractor.py:48 | lowering a numeral changes nothing |
| `AmountFacts.MoneyHitValue` | engines/entityExtractor.py:47-88 | a money hit whose cleaned text reads as x is worth x×10^9 with billion or bn, else x×10^6 with million, else x×1000 with thousand, else x×1000, x×10^6 or x×10^9 for the first stand-alone k, m or b, else x; the shorthand never applies |
| `AmountFacts.MoneyHitScaled` | engines/entityExtractor.py:47-88 | a money hit is its numeral times the multiplier of its magnitude word, with no shorthand |
| `AmountExamples.DollarsSimple` | testing/fixtures/test_entity_extractor.py:34 | "$5,000" is the integer 5000 |
| `AmountExamples.DollarsWithCents` | testing/fixtures/test_entity_extractor.py:37 | "$99.99" is 99.99 |
| `AmountExamples.ThousandDollars` | testing/fixtures/test_entity_extractor.py:49 | "5 thousand dollars" is 5000 |
| `AmountExamples.MillionKeyword` | testing/fixtures/test_entity_extractor.py:52 | "1.25 million" is 1250000 |
| `AmountExamples.BillionKeyword` | testing/fixtures/test_entity_extractor.py:55 | "2 billion" is 2000000000 |
| `AmountExamples.DollarsSpacedK` | testing/fixtures/test_entity_extractor.py:84-85 | "$500 k", with a space, is 500000 |
| `AmountExamples.DollarsJoinedK` | testing/fixtures/test_entity_extractor.py:74-76 | "$500k" gives no number: the k is not a word of its own, so "500k" reaches `float` and fails, as the test's docstring admits |
| `AmountExamples.DollarsJoinedM` | testing/fixtures/test_entity_extractor.py:79-81 | "$1.5m" gives no number, for the same reason |
| `AmountExamples.CanadianDollarSign` | testing/fixtures/test_entity_extractor.py:94 | "CA$100,000" gives no number: stripping "$" leaves "ca100000", which `float` rejects |
| `AmountExamples.FoundAfter` | engines/entityExtractor.py:55-65 | `re.search` of a word alternation finds the first alternative that matches at the leftmost position where any does |
| `AmountExamples.NotFoundAfter` | engines/entityExtractor.py:55-65 | `re.search` finds nothing when no alternative matches anywhere |
| `AmountExamples.KeptBefore` | engines/entityExtractor.py:56-66 | `re.sub` keeps the text in front of the first match unchanged |
| `AmountFacts.MoneyHitHasMarker` | engines/entityExtractor.py:28-84 | every money-pattern hit carries a currency or magnitude marker, so the shorthand never rescales it |
| `AmountFacts.MoneyEndMarked` | engines/entityExtractor.py:31-33 | each of the three money alternatives places a marker inside the hit |
| `AmountFacts.DollarPrefixMarked` | engines/entityExtractor.py:24 | a "$", "US$", "CA$" or "C$" prefix contains the '$' marker |
| `AmountFacts.CodePrefixMarked` | engines/entityExtractor.py:24 | a "USD" or "CAD" prefix is itself a marker |
| `AmountFacts.MagMarked` | engines/entityExtractor.py:26 | each magnitude word contains a marker |
| `AmountFacts.SuffixMarked` | engines/entityExtractor.py:25 | each currency suffix contains a marker |
| `EntityPatterns.MoneyAt` | engines/entityExtractor.py:28-36 | a money hit starts where it was sought and ends within the text |
| `EntityPatterns.MortgageContextAt` | engines/entityExtractor.py:40-41 | a context hit's captured group follows its keyword and is a bounded number |
| `EntityPatterns.LoanTagAt` | engines/entityExtractor.py:141 | an "LN-" hit starts where it was sought and ends within the text |
| `EntityPatterns.LoanPhraseAt` | engines/entityExtractor.py:142 | a loan-phrase hit captures a bounded digit group after the phrase |
| `EntityPatterns.DateAt` | engines/entityExtractor.py:107-114 | a date hit starts where it was sought and ends within the text |
| `EntityPatterns.PhoneAt` | engines/entityExtractor.py:121-128 | a phone hit starts where it was sought and ends within the text |
| `EntityPatterns.MatchAt` | engines/entityExtractor.py:43-151 | every pattern's hit is a non-empty span of the text starting at the position tried |
| `EntityPatterns.MatchesSound` | engines/entityExtractor.py:43-151 | every string `finditer` reports is the group of a hit the pattern makes at that hit's start |
| `EntityPatterns.NoMatchesInEmptyText` | engines/entityExtractor.py:43-151 | no pattern matches empty text |
| `Scan.FindIterSound` | engines/entityExtractor.py:44 | every hit `finditer` reports is the matcher's hit at its own start |
| `Scan.FindIterOrdered` | engines/entityExtractor.py:44 | `finditer` reports hits left to right without overlap |
| `Scan.FindIterComplete` | engines/entityExtractor.py:44 | any position where the pattern matches is covered by some reported hit |
| `Scan.Captured` | engines/entityExtractor.py:44 | `m.group(1)` is the text between the group's bounds |
| `Scan.Lits` | engines/entityExtractor.py:24-26 | an alternation of literals matches, case-insensitively, exactly one of the literals |
| `Records.AmountOf` | engines/entityExtractor.py:86-88 | a value becomes an integer when whole and keeps its fraction otherwise, and the value is preserved |
| `Records.CanonicalAmountsEqual` | engines/entityExtractor.py:96-104 | two amounts of the same value are the same amount, as Python's `5000 == 5000.0` in the `seen` set |
| `RuleEngine.HitsPositive` | engines/ruleEngine.py:65-73 | some entry of a list scores exactly when one of its strings occurs, and no list scores more than its length |
| `RuleEngine.HitsAtLeast` | engines/ruleEngine.py:70-72 | two present single words give at least 2 points |
| `RuleEngine.FiresIff` | engines/ruleEngine.py:65-73 | a rule fires exactly when one of its phrases occurs or two of its single words occur |
| `RuleEngine.FiredMembers` | engines/ruleEngine.py:195-218 | a reason code is reported exactly when some rule of the table reaches the threshold with that score |
| `RuleEngine.FiredInTableOrder` | engines/ruleEngine.py:195-218 | reported codes keep table order |
| `RuleEngine.RulesForMembers` | engines/ruleEngine.py:173-220 | the output holds exactly the escalation rules that fire, flagged, and the normal rules that fire, unflagged |
| `RuleEngine.RulesForInOrder` | engines/ruleEngine.py:195-218 | the eight escalation codes come first in table order, then the three normal codes |
| `RuleEngine.TwoTablesInOrder` | engines/ruleEngine.py:195-218 | concatenating the two tables' reports keeps the combined table order |
| `RuleEngine.AcrossTables` | engines/ruleEngine.py:195-218 | every escalation code precedes every normal code |
| `RuleEngine.RulesForDistinct` | engines/ruleEngine.py:195-218 | no code is reported twice |
| `RuleEngine.FlagFollowsTable` | engines/ruleEngine.py:177-214 | a code is flagged exactly when it belongs to the escalation table; `es` never changes, so nothing propagates |
| `RuleEngine.TablesShaped` | engines/ruleEngine.py:11-59 | the eleven entries have lower-case, non-empty strings and distinct codes, eight escalation ones first |
| `RuleEngine.AllRulesShaped` | engines/ruleEngine.py:11-59 | every table entry is lower case and non-empty |
| `RuleEngine.EscalationRulesShaped` | engines/ruleEngine.py:11-44 | the escalation table's strings are lower case and non-empty |
| `RuleEngine.NormalRulesShaped` | engines/ruleEngine.py:45-59 | the normal table's strings are lower case and non-empty |
| `RuleEngine.CodesDistinct` | engines/ruleEngine.py:11-59 | the eleven codes are pairwise different |
| `RuleEngine.NothingPresent` | engines/ruleEngine.py:65-73 | a text without lower-case letters scores 0 on every rule |
| `RuleEngine.FiredNothing` | engines/ruleEngine.py:195-218 | when no rule scores, nothing is reported |
| `RuleEngine.BlankTextNoCodes` | engines/ruleEngine.py:173-220 | empty or whitespace-only text yields no reason codes |
| `RuleEngine.LoneWordNeverFires` | engines/ruleEngine.py:70-72 | a single 1-point word such as "payment" or "dispute" alone stays below the threshold |
| `RuleEngine.HitsAtMostOne` | engines/ruleEngine.py:70-72 | with only one entry present a list scores at most 1 |
| `RuleEngine.PresenceNotCount` | engines/ruleEngine.py:65-73 | "lost my job" repeated gives HARDSHIP_LANGUAGE exactly 2: presence counts, not repetitions |
| `RuleEngine.TakeLegalActionScoresFour` | engines/ruleEngine.py:95-103 | "take legal action" scores at least 4, since it also contains "legal action" |
| `RuleEngine.SharedWordScoresThree` | engines/ruleEngine.py:11-59 | a word on both lists ("unemployed", "forbearance", "refinance") alone scores at least 3 |
| `RuleEngine.RuleEngine.constructor` | engines/ruleEngine.py:61-63 | the engine keeps the transcript and the lowercased normalised text, with both tables |
| `RuleEngine.RuleEngine.CheckRule` | engines/ruleEngine.py:65-171 | each `_check_*` loop adds 2 per present phrase and 1 per present single word, giving the rule's score |
| `RuleEngine.RuleEngine.Report` | engines/ruleEngine.py:195-218 | one `if ... >= threshold` step appends the code exactly when its rule fires |
| `RuleEngine.RuleEngine.ReportEscalations` | engines/ruleEngine.py:195-210 | the eight escalation steps report the firing escalation rules, flagged |
| `RuleEngine.RuleEngine.ReportNormal` | engines/ruleEngine.py:213-218 | the three normal steps report the firing normal rules, unflagged |
| `RuleEngine.RuleEngine.ApplyRules` | engines/ruleEngine.py:173-220 | `apply_rules` returns the firing escalation codes then the firing normal codes, each with its score |
| `IntentClassifier.Leader` | engines/intentClassifier.py:28-96 | the position chosen is the first recognised element with the strict maximum positive score; none when no recognised score is positive |
| `IntentClassifier.Intent` | engines/intentClassifier.py:28-98 | the intent is "NONE" exactly when no recognised code has a positive score, and otherwise a recognised name |
| `IntentClassifier.Classify` | engines/intentClassifier.py:14-98 | the loop with `max` and `max_code` computes `Intent` |
| `IntentClassifier.IntentIsFirstMaximum` | engines/intentClassifier.py:31-96 | a chosen intent is the code of an input element whose score is at least every recognised score and above every earlier recognised score |
| `IntentClassifier.FirstMaximumUnique` | engines/intentClassifier.py:34-96 | only one position is the first maximum |
| `IntentClassifier.UnrecognisedIgnored` | engines/intentClassifier.py:31-96 | appending an unrecognised code never changes the intent, whatever its score |
| `IntentClassifier.RuleEngineNamesNeverChosen` | engines/intentClassifier.py:31-96 | HARDSHIP_LANGUAGE and DISPUTE_FEE_OR_CHARGE are never the intent |
| `IntentClassifier.UnknownCodeExample` | engines/intentClassifier.py:31-96 | UNKNOWN_CODE with 10 loses to PAYMENT_INTENT with 1 |
| `IntentClassifier.TieGoesToEarlier` | engines/intentClassifier.py:34-35 | on a tie the earlier code wins, because the comparison is strict |
| `EscalationEngine.EscalationCount` | engines/escalationEngine.py:13-18 | the count is at most the list length and positive exactly when some code is flagged |
| `EscalationEngine.CountIsFlaggedPositions` | engines/escalationEngine.py:13-18 | the count equals the number of flagged positions |
| `EscalationEngine.CountAppend` | engines/escalationEngine.py:13-18 | counting is additive over concatenation |
| `EscalationEngine.CountEscalationReasons` | engines/escalationEngine.py:13-18 | the counter loop computes `EscalationCount` |
| `EscalationEngine.HasEscalationTrigger` | engines/escalationEngine.py:20-24 | the early-return loop answers whether some code is flagged |
| `EscalationEngine.RiskFor` | engines/escalationEngine.py:28-33 | HIGH for 2 or more, MEDIUM for 1, LOW for 0 |
| `EscalationEngine.CalculateRiskLevel` | engines/escalationEngine.py:26-33 | the risk level is the level of the escalation count |
| `EscalationEngine.Evaluate` | engines/escalationEngine.py:35-41 | HIGH implies escalation, and LOW holds exactly when no escalation is needed |
| `EscalationEngine.EvaluateEscalation` | engines/escalationEngine.py:35-41 | the method returns `Evaluate` of the codes |
| `EscalationEngine.OnlyFlagsMatter` | engines/escalationEngine.py:13-41 | lists with the same flags get the same evaluation, whatever their codes and scores |
| `EscalationEngine.FlaggedCodeRaisesRisk` | engines/escalationEngine.py:26-33 | appending a flagged code forces escalation and raises the risk one level, up to HIGH |
| `EscalationEngine.RiskMonotone` | engines/escalationEngine.py:26-41 | appending codes never lowers the risk or withdraws escalation |
| `EscalationEngine.EmptyIsLow` | engines/escalationEngine.py:35-41 | an empty list gives no escalation and LOW |
| `EscalationEngine.OneFlaggedIsMedium` | engines/escalationEngine.py:26-41 | one flagged plus one unflagged code, in either order, gives escalation and MEDIUM |
| `SummaryGenerator.ExtractPaymentInfo` | engines/summaryGenerator.py:15-19 | the stub returns tkinter's NONE constant without amounts, and raises TypeError from `join` over numbers otherwise |
| `SummaryGenerator.Money` | testing/fixtures/test_summary_generator.py:33-43 | an amount renders as "$", digits with thousands separators, and exactly two decimals |
| `SummaryGenerator.MoneyReadsBack` | testing/fixtures/test_summary_generator.py:33-43 | the rendered digits, without commas, read back as the amount in cents |
| `SummaryGenerator.GroupedDigits` | testing/fixtures/test_summary_generator.py:41-43 | removing the thousands separators gives the plain decimal rendering |
| `SummaryGenerator.MoneyExampleCents` | testing/fixtures/test_summary_generator.py:33-35 | 1234.5 renders as "$1,234.50" |
| `SummaryGenerator.MoneyExampleWhole` | testing/fixtures/test_summary_generator.py:37-39 | 10 renders as "$10.00" |
| `SummaryGenerator.MoneyExampleMillion` | testing/fixtures/test_summary_generator.py:41-43 | 1000000 renders as "$1,000,000.00" |
| `SummaryGenerator.Cents` | testing/fixtures/test_summary_generator.py:33-39 | the amount is rounded to the nearest cent |
| `SummaryGenerator.MoneyList` | testing/fixtures/test_summary_generator.py:37-39 | each amount is rendered in order |
| `SummaryGenerator.PaymentBullet` | testing/fixtures/test_summary_generator.py:30-43 | no bullet without amounts, the single-amount sentence for one, the multiple-amounts sentence for more |
| `SummaryGenerator.PaymentBulletMentionsEachAmount` | testing/fixtures/test_summary_generator.py:37-43 | every amount appears, rendered, in the payment bullet |
| `SummaryGenerator.JoinContainsParts` | testing/fixtures/test_summary_generator.py:37-39 | a joined list contains each of its parts |
| `SummaryGenerator.RequestBullet` | testing/fixtures/test_summary_generator.py:52-72 | a fixed template for payment, escrow, dispute and new-loan; for hardship, one template iff LOAN_MOD_REQUEST is present; otherwise the general inquiry |
| `SummaryGenerator.FlaggedPhrases` | testing/fixtures/test_summary_generator.py:85-112 | the phrases are exactly those of the flagged codes |
| `SummaryGenerator.EscalationBullet` | testing/fixtures/test_summary_generator.py:81-112 | no bullet without a flagged code; otherwise a bullet starting "Call escalated due to: " |
| `SummaryGenerator.EscalationBulletNamesEachCode` | testing/fixtures/test_summary_generator.py:90-112 | every flagged code's phrase appears in the escalation bullet |
| `SummaryGenerator.FormatBullet` | testing/fixtures/test_summary_generator.py:121-134 | "" stays ""; otherwise the first letter is capitalised, the rest is kept and there is exactly one trailing period |
| `SummaryGenerator.FormatBulletIdempotent` | testing/fixtures/test_summary_generator.py:130-131 | formatting a formatted bullet changes nothing |
| `SummaryGenerator.Optional` | testing/fixtures/test_summary_generator.py:151-159 | an optional bullet contributes one formatted bullet or none |
| `SummaryGenerator.Assemble` | testing/fixtures/test_summary_generator.py:147-165 | the formatted request bullet comes first, followed by exactly the formatted payment bullet and then the formatted escalation bullet, each when present |
| `SummaryGenerator.GenerateBullets` | testing/fixtures/test_summary_generator.py:147-165 | 1 to 3 formatted bullets: the request bullet first, then the payment bullet iff there are amounts, then the escalation bullet iff a code is flagged, in that order |
| `SummaryGenerator.BulletsMentionAmountsAndCodes` | testing/fixtures/test_summary_generator.py:151-165 | the second bullet names every amount as money; the last bullet says "escalated" and names the phrase of every flagged code |
| `TriagePipeline.Triage` | engines/triageResult.py:33-53 | one list of reason codes feeds every stage; entities come from the normalised text; HIGH implies escalation and LOW holds iff there is none; 1 to 3 bullets |
| `TriagePipeline.ProcessSingle` | engines/triageResult.py:24-53 | a missing file is FileNotFound before any engine runs; otherwise the result is the triage of the file's contents |
| `TriagePipeline.FirstMissing` | engines/triageResult.py:59-61 | finds the first path whose file is missing, if any |
| `TriagePipeline.ProcessBatch` | engines/triageResult.py:55-62 | the loop computes `Batch`: the first failure propagates, otherwise one result per path |
| `TriagePipeline.Prefix` | engines/triageResult.py:58-61 | after i steps the list holds the results of the first i paths, in order |
| `TriagePipeline.PrefixStep` | engines/triageResult.py:60-61 | each step appends the next path's result |
| `TriagePipeline.BatchFailsAt` | engines/triageResult.py:59-61 | when path i is the first missing one the batch fails with that path |
| `TriagePipeline.BatchSucceeds` | engines/triageResult.py:59-62 | when every file exists the batch returns all results in order |
| `TriagePipeline.BatchAllOrNothing` | engines/triageResult.py:55-62 | the batch succeeds iff every file exists, with one result per path in order; otherwise it fails with the first missing path and no partial list |
| `TriagePipeline.EmptyBatch` | engines/triageResult.py:55-62 | an empty batch gives [] |
| `TriagePipeline.FlagsFollowTables` | engines/triageResult.py:37-38 | a result's code is flagged iff it comes from the escalation table |
| `TriagePipeline.RequestBulletIsGeneric` | engines/triageResult.py:43-50 | in the pipeline the request bullet is always the general inquiry |
| `TriagePipeline.ClassifiedIntentGetsGenericBullet` | engines/triageResult.py:43-50 | no classifier output selects a request template |
| `TriagePipeline.HardshipOnly` | engines/triageResult.py:37-47 | HARDSHIP_LANGUAGE alone gives escalation, MEDIUM risk and intent "NONE" |
| `TriagePipeline.BlankTranscript` | engines/triageResult.py:33-47 | a blank transcript has no codes, no escalation, LOW risk and intent "NONE" |
| `BatchReporter.KeysOf` | engines/batchReporter.py:14-22 | the keys of a counter, in insertion order |
| `BatchReporter.Increment` | engines/batchReporter.py:19-22 | a present key's count goes up by 1; a new key is appended with count 1; the total grows by 1 |
| `BatchReporter.Occurrences` | engines/batchReporter.py:15-22 | a key occurs at most once per element and is counted exactly when present |
| `BatchReporter.TallyCounts` | engines/batchReporter.py:14-23 | the keys are the first occurrences, each count is the number of occurrences, and the counts sum to the number of keys counted |
| `BatchReporter.TallySnoc` | engines/batchReporter.py:19-22 | counting one more key is one `Increment` |
| `BatchReporter.TallyKeys` | engines/batchReporter.py:14-23 | keys are distinct, are exactly the counted values, and exist iff something was counted |
| `BatchReporter.CountReasonCodes` | engines/batchReporter.py:12-23 | the nested loop computes the tally of all reason codes of the batch |
| `BatchReporter.ReasonCodeCounts` | engines/batchReporter.py:12-23 | each code maps to its number of occurrences, the keys are exactly the occurring codes, and the counts sum to the number of reason codes |
| `BatchReporter.CodeCountIsLength` | engines/batchReporter.py:15-16 | the flattened code list is as long as the total number of reason codes |
| `BatchReporter.AllCodesMembers` | engines/batchReporter.py:15-17 | a code is counted iff some result has it |
| `BatchReporter.NoResultsNoCounts` | engines/batchReporter.py:12-23 | an empty batch gives an empty dictionary |
| `BatchReporter.EscalationRate` | engines/batchReporter.py:25-30 | 0 for an empty batch, else 100 × escalated / total, so within [0, 100] |
| `BatchReporter.CalculateEscalationRate` | engines/batchReporter.py:25-30 | the method computes `EscalationRate` |
| `BatchReporter.RateExtremes` | engines/batchReporter.py:25-30 | the rate is 100 iff every result escalates, and 0 iff none does |
| `BatchReporter.AllEscalated` | engines/batchReporter.py:29 | every result escalates iff the count is the batch size, and none iff it is 0 |
| `BatchReporter.Insert` | engines/batchReporter.py:42 | inserting behind the last entry whose count is at least the new one keeps counts non-increasing |
| `BatchReporter.InsertItems` | engines/batchReporter.py:42 | insertion keeps every entry and, among equal counts, puts the new one last |
| `BatchReporter.SortByCount` | engines/batchReporter.py:42 | the sorted list has non-increasing counts |
| `BatchReporter.SortItems` | engines/batchReporter.py:42 | sorting is a permutation and is stable: entries with equal counts keep their order |
| `BatchReporter.Slice` | engines/batchReporter.py:43 | `xs[:n]` is a prefix of length min(n, len) and, for negative n, drops the last -n entries |
| `BatchReporter.GetTopIntents` | engines/batchReporter.py:32-43 | the loop, sort and slice compute `TopIntents` |
| `BatchReporter.TopIntentsFacts` | engines/batchReporter.py:32-43 | at most top_n pairs with non-increasing counts, each an intent with its number of occurrences, and ties in first-appearance order |
| `BatchReporter.TopIntentsEmpty` | engines/batchReporter.py:32-43 | for positive top_n the list is empty iff the batch is |
| `BatchReporter.EntryOfTally` | engines/batchReporter.py:14-22 | every counter entry is a counted key with its number of occurrences |
| `BatchReporter.EntryLookup` | engines/batchReporter.py:19-20 | with distinct keys, looking up an entry's key gives its count |
| `BatchReporter.WithCountPrefix` | engines/batchReporter.py:43 | slicing keeps, for each count, a prefix of the entries with that count |
| `BatchReporter.LinesFacts` | engines/batchReporter.py:80 | the lines are exactly "<name> (<n> occurrences)" for the patterns with positive count, and there are none iff every count is 0 |
| `BatchReporter.CommonPatterns` | engines/batchReporter.py:45-80 | the loop with the five conditions and the final comprehension computes `Lines` of the five counts |
| `BatchReporter.PatternStep` | engines/batchReporter.py:59-77 | one result adds 1 to each pattern it shows |
| `BatchReporter.HighPatternNeverCounts` | engines/batchReporter.py:72 | on results whose risk level the escalation engine produced ("LOW", "MEDIUM" or "HIGH") the "multiple escalation triggers" pattern never counts |
| `BatchReporter.PaymentPatternsNeverCount` | engines/batchReporter.py:59-65 | patterns 1 and 2 never count unless some intent is "payment" |
| `BatchReporter.ClassifierNeverSaysPayment` | engines/intentClassifier.py:28-98 | the classifier never returns "payment" |
| `BatchReporter.ClassifierOutputPatterns` | engines/batchReporter.py:55-80 | on results whose intent the classifier and whose risk level the escalation engine produced, only patterns 3 and 5 can appear |
| `BatchReporter.PipelineOutputPatterns` | engines/batchReporter.py:55-80 | on the results the pipeline builds from any batch of transcripts, pattern 4 counts 0 and only patterns 3 and 5 can appear |
| `BatchReporter.ClassifierPaymentPatterns` | engines/batchReporter.py:59-65 | on classifier output the two "payment" patterns count 0 |
| `BatchReporter.ZeroPatternsDropped` | engines/batchReporter.py:80 | with patterns 1, 2 and 4 at zero only the lines of patterns 3 and 5 remain |
| `BatchReporter.OnlyThirdAndFifth` | engines/batchReporter.py:80 | with counters 1, 2 and 4 at zero only the lines of patterns 3 and 5 remain |
| `BatchReporter.Tenths` | engines/batchReporter.py:108 | `:.1f` rounds the rate to the nearest tenth |
| `BatchReporter.TopItem` | engines/batchReporter.py:110 | `max` with a key picks the first entry with the largest count |
| `BatchReporter.SummaryLines` | engines/batchReporter.py:105-115 | the summary lines built one by one equal `Summary`, including its IndexError and ValueError outcomes |
| `BatchReporter.GenerateCsv` | engines/batchReporter.py:97-124 | the method computes `Csv` |
| `BatchReporter.CsvOutcome` | engines/batchReporter.py:109-110 | an empty batch raises IndexError at `top_intents[0]`; a batch without reason codes raises ValueError in `max`; otherwise the CSV is produced |
| `BatchReporter.CsvLayout` | engines/batchReporter.py:105-124 | the CSV opens with the summary header and total, and ends with the blank line, the header row and the data rows |
| `BatchReporter.SummaryOpening` | engines/batchReporter.py:106-107 | the summary starts with "SUMMARY METRICS" and the total |
| `BatchReporter.RowsLayout` | engines/batchReporter.py:119-122 | the data rows hold one row per result, in order |
| `BatchReporter.RowsSnoc` | engines/batchReporter.py:119-122 | each loop step appends the row of the next result |
| `BatchReporter.RowStartsWithName` | engines/batchReporter.py:122 | every row starts with its file name and a comma |
| `BatchReporter.ZeroPad3Value` | engines/batchReporter.py:122 | `{i+1:03d}` gives at least three digits, exactly three below 1000, denoting i+1 |
| `BatchReporter.LeadingZeros` | engines/batchReporter.py:122 | leading zeros do not change the value |
| `BatchReporter.NatToStringShort` | engines/batchReporter.py:122 | numbers below 1000 take at most three digits, from 100 on at least three |
| `BatchReporter.RowNamesDistinct` | engines/batchReporter.py:122 | different rows get different file names |

## Left out

- File reading: the file system is a map from path to contents. OS errors other than a missing file are not modelled.
- The wall-clock timestamp: `ParseTranscript` takes it as a parameter.
- Unicode: strings are ASCII for every purpose.
  - `lower` and `\w` cover A-Z, a-z, 0-9 and '_' only.
  - Whitespace is ' ' and characters 9-13 and 28-31.
  - `re.IGNORECASE` folds ASCII letters only.
- Floating point: amounts and the escalation rate are exact rationals.
  - "Whole" means an exact integer. The 1e-9 tolerance at engines/entityExtractor.py:86 is not modelled: a value within 1e-9 of an integer but not equal to it stays a fraction.
  - The `.2f` and `.1f` renderings round half up on the exact value. Python rounds the binary float instead, so a few ties round differently.
- General regular-expression semantics: only the patterns of engines/entityExtractor.py are written out, as hand-coded recognisers.
- `build_report_dataframe` (pandas).
- The command-line front ends (engines/cli.py and cli.py).
- The superseded drafts: engines/triagePipeline.py, engines/entityExtractor_old.py and the root transcriptParser.py.
- `None` inputs: the exceptions Python raises for `None` text, lists or entities are not modelled; the types simply have no `None`.
- The per-code local variables of `classify`: they are never read.
- Speakers are a set. Python builds a list from a set in no defined order, so no order is modelled.
- Dictionaries are lists of (key, count) pairs in insertion order, the order Python dictionaries keep.
- The summary bullet API (`format_bullet`, the three `extract_*_bullet` methods and `generate_bullets`) does not exist in engines/summaryGenerator.py, yet engines/triageResult.py:50 calls `generate_bullets`.
  - The model follows the behaviour testing/fixtures/test_summary_generator.py fixes.
  - The escalation bullet joins the phrases with ", ".
  - The multiple-amounts bullet joins the amounts with ", ".
- `SummaryGenerator.FormatBullet` upper-cases only the first character and keeps the rest. This matches the tests, which never show a capital inside a bullet.
- `EntityPatterns.MoneyAt`, `EntityPatterns.LoanTagAt`, `EntityPatterns.DateAt` and `EntityPatterns.PhoneAt`: their own contracts state only that a hit is a span of the text at the position tried. What a hit contains is stated by the lemmas about them (`AmountFacts.MoneyHitHasMarker`, `EntityFacts.LoanTagShape`, `EntityFacts.PhoneShape`). Dates get no such shape lemma.
- `IntentClassifier.Classify` reads each code's `score` field directly. engines/intentClassifier.py:33-93 calls `rc.get_score()`, but Data_Classes/reasonCode.py:7-20 defines only `get_confidence`. So the source raises AttributeError at the first reason code whose name the classifier recognises; the model takes the score getter to exist.
- `EntityExtractor.ParseDecimal` models `float()` only on plain decimal numerals. Python also accepts a sign, a leading or trailing point, an exponent, "inf", "nan", underscores between digits and surrounding whitespace. None of these forms is left by cleaning a money or context hit: the numeral in a hit has no sign, exponent or underscore and has digits on both sides of its point, cleaning keeps its digits, and the currency and magnitude words contain no 'e' or 'f'.
- `Text.NatToStringValue` and `BatchReporter.ZeroPad3Value` cover non-negative integers only; every number the report renders is a count.

## Code and tests disagree

Where the code and its tests disagree, the model follows the code:

1. The classifier recognises "HARDSHIP" and "DISPUTE_FEE" (engines/intentClassifier.py:32, 56). The rule engine emits HARDSHIP_LANGUAGE and DISPUTE_FEE_OR_CHARGE, so these two are never chosen (`IntentClassifier.RuleEngineNamesNeverChosen`).
2. Intent ties go to the earlier position in the input list (`IntentClassifier.TieGoesToEarlier`). No fixed order of intents decides them.
3. Normal-table codes are never flagged, because `es` stays False (engines/ruleEngine.py:177, 214). testing/fixtures/test_rule_engine.py:133-137 expects the flag to propagate (`RuleEngine.FlagFollowsTable`).
4. A line starting with ':' adds the empty speaker "" (engines/transcriptParser.py:22-24). testing/fixtures/test_transcript_parser.py:63-69 expects no speakers (`TranscriptParser.EmptyLabelKept`).
5. The pipeline passes reason-code names as the intent to the summary (engines/triageResult.py:43, 50). The request templates are keyed by "payment", "escrow" and similar, so in the pipeline the request bullet is always the general inquiry (`TriagePipeline.RequestBulletIsGeneric`).
6. The batch reporter compares against "payment" and "high" (engines/batchReporter.py:60, 64, 72). The pipeline produces "PAYMENT_INTENT" and "HIGH".
   - Patterns 1 and 2 never count on pipeline output.
   - Pattern 4 never counts on pipeline output, since the escalation engine returns upper-case names.
   - The risk level of a result is a string, as in engines/triageResult.py, so a hand-built result with "high" does count.
   - See `BatchReporter.PipelineOutputPatterns`, `BatchReporter.ClassifierOutputPatterns` and `BatchReporter.HighPatternNeverCounts`.
