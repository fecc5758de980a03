/** engines/batchReporter.py: aggregate figures over a batch of triage
    results and the CSV report built from them. */
module BatchReporter {
  import opened Text
  import opened Records
  import EntityExtractor
  import IntentClassifier
  import TriagePipeline

  // ---------------------------------------------------------------------
  // Insertion-ordered counting dictionaries

  /** A Python `dict` from names to counts: its items in insertion order. */
  type Counter = seq<(string, nat)>

  /** The dictionary's keys, in insertion order. */
  function KeysOf(c: Counter): (ks: seq<string>)
    ensures |ks| == |c|
    ensures forall i | 0 <= i < |c| :: ks[i] == c[i].0
    decreases |c|
  {
    if |c| == 0 then [] else [c[0].0] + KeysOf(c[1..])
  }

  /** `d.get(k, 0)`. */
  function Lookup(c: Counter, k: string): nat
    decreases |c|
  {
    if |c| == 0 then 0 else if c[0].0 == k then c[0].1 else Lookup(c[1..], k)
  }

  /** The sum of the counts. */
  function Total(c: Counter): nat
    decreases |c|
  {
    if |c| == 0 then 0 else c[0].1 + Total(c[1..])
  }

  /** `if k in d: d[k] += 1 else: d[k] = 1`: a new key goes at the end. */
  function Increment(c: Counter, key: string): (r: Counter)
    ensures KeysOf(r) == if key in KeysOf(c) then KeysOf(c) else KeysOf(c) + [key]
    ensures forall k :: Lookup(r, k) == Lookup(c, k) + (if k == key then 1 else 0)
    ensures Total(r) == Total(c) + 1
    decreases |c|
  {
    if |c| == 0 then [(key, 1)]
    else
      var r := if c[0].0 == key then [(key, c[0].1 + 1)] + c[1..] else [c[0]] + Increment(c[1..], key);
      assert r[1..] == if c[0].0 == key then c[1..] else Increment(c[1..], key);
      r
  }

  /** How often `k` occurs in `keys`. */
  function Occurrences(keys: seq<string>, k: string): (n: nat)
    ensures n <= |keys|
    ensures n > 0 <==> k in keys
    decreases |keys|
  {
    if |keys| == 0 then 0
    else
      var init := keys[..|keys| - 1];
      assert keys == init + [keys[|keys| - 1]];
      Occurrences(init, k) + (if keys[|keys| - 1] == k then 1 else 0)
  }

  /** The dictionary a counting loop over `keys` builds. */
  function Tally(keys: seq<string>): Counter
    decreases |keys|
  {
    if |keys| == 0 then []
    else Increment(Tally(keys[..|keys| - 1]), keys[|keys| - 1])
  }

  /** A tally has one key per distinct name, in order of first appearance,
      mapped to its number of occurrences; the counts add up to the number
      of names. */
  lemma {:induction false} TallyCounts(keys: seq<string>)
    ensures KeysOf(Tally(keys)) == EntityExtractor.Unique(keys)
    ensures forall k :: Lookup(Tally(keys), k) == Occurrences(keys, k)
    ensures Total(Tally(keys)) == |keys|
    decreases |keys|
  {
    if |keys| > 0 {
      var init := keys[..|keys| - 1];
      TallyCounts(init);
      assert keys == init + [keys[|keys| - 1]];
    }
  }

  lemma TallySnoc(keys: seq<string>, k: string)
    ensures Tally(keys + [k]) == Increment(Tally(keys), k)
  {
    assert (keys + [k])[..|keys|] == keys;
  }

  /** A tally has no key twice, and its keys are exactly the names counted. */
  lemma TallyKeys(keys: seq<string>)
    ensures EntityExtractor.Distinct(KeysOf(Tally(keys)))
    ensures forall k :: k in KeysOf(Tally(keys)) <==> k in keys
    ensures |Tally(keys)| > 0 <==> |keys| > 0
  {
    TallyCounts(keys);
    EntityExtractor.UniqueIsFirstOccurrences(keys);
    if |keys| > 0 {
      assert keys[0] in KeysOf(Tally(keys));
    }
  }

  // ---------------------------------------------------------------------
  // count_reason_codes (lines 12-23)

  /** The code names of a result's reason codes, in order. */
  function CodeNames(rcs: seq<ReasonCode>): seq<string> {
    seq(|rcs|, i requires 0 <= i < |rcs| => rcs[i].code)
  }

  /** Every reason-code name of the batch, result by result. */
  function AllCodes(results: seq<TriageResult>): seq<string>
    decreases |results|
  {
    if |results| == 0 then []
    else AllCodes(results[..|results| - 1]) + CodeNames(results[|results| - 1].reasonCodes)
  }

  /** The number of reason codes in the batch. */
  function CodeCount(results: seq<TriageResult>): nat
    decreases |results|
  {
    if |results| == 0 then 0
    else CodeCount(results[..|results| - 1]) + |results[|results| - 1].reasonCodes|
  }

  /** `count_reason_codes`: a counting loop over every code of every result. */
  method CountReasonCodes(results: seq<TriageResult>) returns (reasonCodeCount: Counter)
    ensures reasonCodeCount == Tally(AllCodes(results))
  {
    reasonCodeCount := [];
    var i := 0;
    while i < |results|
      invariant 0 <= i <= |results|
      invariant reasonCodeCount == Tally(AllCodes(results[..i]))
    {
      var rcs := results[i].reasonCodes;
      ghost var before := AllCodes(results[..i]);
      ghost var names := CodeNames(rcs);
      assert before + names[..0] == before;
      var j := 0;
      while j < |rcs|
        invariant 0 <= j <= |rcs|
        invariant reasonCodeCount == Tally(before + names[..j])
      {
        var code := rcs[j].code;
        SnocPrefix(before, names, j);
        TallySnoc(before + names[..j], code);
        reasonCodeCount := Increment(reasonCodeCount, code);
        j := j + 1;
      }
      AllCodesSnoc(results, i);
      i := i + 1;
    }
    assert results[..i] == results;
  }

  lemma SnocPrefix(before: seq<string>, names: seq<string>, j: nat)
    requires j < |names|
    ensures before + names[..j + 1] == (before + names[..j]) + [names[j]]
  {
    assert names[..j + 1] == names[..j] + [names[j]];
  }

  lemma AllCodesSnoc(results: seq<TriageResult>, i: nat)
    requires i < |results|
    ensures AllCodes(results[..i + 1]) == AllCodes(results[..i]) + CodeNames(results[i].reasonCodes)[..|results[i].reasonCodes|]
  {
    assert results[..i + 1][..i] == results[..i];
    assert CodeNames(results[i].reasonCodes)[..|results[i].reasonCodes|] == CodeNames(results[i].reasonCodes);
  }

  /** Each code maps to its number of occurrences across the batch, the keys
      are exactly the codes that occur, and the counts add up to the number
      of reason codes. */
  lemma {:induction false} ReasonCodeCounts(results: seq<TriageResult>)
    ensures forall k :: Lookup(Tally(AllCodes(results)), k) == Occurrences(AllCodes(results), k)
    ensures forall k :: k in KeysOf(Tally(AllCodes(results))) <==> k in AllCodes(results)
    ensures Total(Tally(AllCodes(results))) == CodeCount(results)
    decreases |results|
  {
    TallyCounts(AllCodes(results));
    TallyKeys(AllCodes(results));
    CodeCountIsLength(results);
  }

  lemma {:induction false} CodeCountIsLength(results: seq<TriageResult>)
    ensures |AllCodes(results)| == CodeCount(results)
    decreases |results|
  {
    if |results| > 0 {
      CodeCountIsLength(results[..|results| - 1]);
    }
  }

  /** A code name occurs in the batch exactly when some result carries it. */
  lemma {:induction false} AllCodesMembers(results: seq<TriageResult>, k: string)
    ensures k in AllCodes(results) <==> exists i, j | 0 <= i < |results| && 0 <= j < |results[i].reasonCodes| ::
      results[i].reasonCodes[j].code == k
    decreases |results|
  {
    if |results| > 0 {
      var n := |results| - 1;
      var init := results[..n];
      AllCodesMembers(init, k);
      var names := CodeNames(results[n].reasonCodes);
      if k in names {
        var j :| 0 <= j < |names| && names[j] == k;
        assert results[n].reasonCodes[j].code == k;
      }
      if exists i, j | 0 <= i < |results| && 0 <= j < |results[i].reasonCodes| :: results[i].reasonCodes[j].code == k {
        var i, j :| 0 <= i < |results| && 0 <= j < |results[i].reasonCodes| && results[i].reasonCodes[j].code == k;
        if i < n {
          assert init[i] == results[i];
        } else {
          assert names[j] == k;
        }
      }
    }
  }

  /** An empty batch counts nothing. */
  lemma NoResultsNoCounts()
    ensures Tally(AllCodes([])) == []
  {
  }

  // ---------------------------------------------------------------------
  // calculate_escalation_rate (lines 25-30)

  /** The number of escalated results. */
  function EscalatedCount(results: seq<TriageResult>): (n: nat)
    ensures n <= |results|
    decreases |results|
  {
    if |results| == 0 then 0
    else EscalatedCount(results[..|results| - 1]) + (if results[|results| - 1].escalate then 1 else 0)
  }

  /** The escalation rate as a percentage, 0 for an empty batch. Python
      computes it in floating point; the model keeps the exact rational. */
  function EscalationRate(results: seq<TriageResult>): (rate: real)
    ensures 0.0 <= rate <= 100.0
    ensures |results| == 0 ==> rate == 0.0
    ensures |results| > 0 ==> rate * |results| as real == 100.0 * EscalatedCount(results) as real
  {
    if |results| == 0 then 0.0
    else (EscalatedCount(results) as real / |results| as real) * 100.0
  }

  /** `calculate_escalation_rate`: the generator sum is a counting loop. */
  method CalculateEscalationRate(results: seq<TriageResult>) returns (rate: real)
    ensures rate == EscalationRate(results)
  {
    if |results| == 0 {
      return 0.0;
    }
    var escalatedCount := 0;
    var i := 0;
    while i < |results|
      invariant 0 <= i <= |results|
      invariant escalatedCount == EscalatedCount(results[..i])
    {
      assert results[..i + 1][..i] == results[..i];
      if results[i].escalate {
        escalatedCount := escalatedCount + 1;
      }
      i := i + 1;
    }
    assert results[..i] == results;
    rate := (escalatedCount as real / |results| as real) * 100.0;
  }

  /** The rate is 100 exactly when every result of a non-empty batch is
      escalated, and 0 exactly when none is. */
  lemma {:induction false} RateExtremes(results: seq<TriageResult>)
    requires |results| > 0
    ensures EscalationRate(results) == 100.0 <==> forall i | 0 <= i < |results| :: results[i].escalate
    ensures EscalationRate(results) == 0.0 <==> forall i | 0 <= i < |results| :: !results[i].escalate
  {
    AllEscalated(results);
  }

  lemma {:induction false} AllEscalated(results: seq<TriageResult>)
    ensures EscalatedCount(results) == |results| <==> forall i | 0 <= i < |results| :: results[i].escalate
    ensures EscalatedCount(results) == 0 <==> forall i | 0 <= i < |results| :: !results[i].escalate
    decreases |results|
  {
    if |results| > 0 {
      var n := |results| - 1;
      var init := results[..n];
      AllEscalated(init);
      assert forall i | 0 <= i < n :: init[i] == results[i];
    }
  }

  // ---------------------------------------------------------------------
  // get_top_intents (lines 32-43)

  /** The intents of the batch, in order. */
  function Intents(results: seq<TriageResult>): (r: seq<string>)
    ensures |r| == |results|
    decreases |results|
  {
    if |results| == 0 then []
    else Intents(results[..|results| - 1]) + [results[|results| - 1].intent]
  }

  /** Counts never increase from left to right. */
  predicate NonIncreasing(c: Counter) {
    forall i, j | 0 <= i < j < |c| :: c[i].1 >= c[j].1
  }

  /** The items with count `n`, in order. */
  function WithCount(c: Counter, n: nat): Counter
    decreases |c|
  {
    if |c| == 0 then []
    else WithCount(c[..|c| - 1], n) + (if c[|c| - 1].1 == n then [c[|c| - 1]] else [])
  }

  lemma WithCountSnoc(c: Counter, x: (string, nat), n: nat)
    ensures WithCount(c + [x], n) == WithCount(c, n) + (if x.1 == n then [x] else [])
  {
    assert (c + [x])[..|c|] == c;
  }

  /** Puts `x` after every item whose count is at least its own, so that an
      item never overtakes an earlier one with the same count. */
  function Insert(t: Counter, x: (string, nat)): (r: Counter)
    requires NonIncreasing(t)
    ensures NonIncreasing(r)
    ensures forall y | y in r :: y == x || y in t
    decreases |t|
  {
    if |t| == 0 || t[|t| - 1].1 >= x.1 then t + [x]
    else
      var init, last := t[..|t| - 1], t[|t| - 1];
      var u := Insert(init, x);
      forall i, j | 0 <= i < j < |u + [last]| ensures (u + [last])[i].1 >= (u + [last])[j].1 {
        if j == |u| {
          assert (u + [last])[i] == u[i] && u[i] in u;
          if u[i] != x {
            var k :| 0 <= k < |init| && init[k] == u[i];
          }
        } else {
          assert (u + [last])[i] == u[i] && (u + [last])[j] == u[j];
        }
      }
      u + [last]
  }

  /** Inserting adds `x` to the items, and to the items with its count at
      the end, after those already there. */
  lemma {:induction false} InsertItems(t: Counter, x: (string, nat))
    requires NonIncreasing(t)
    ensures multiset(Insert(t, x)) == multiset(t) + multiset{x}
    ensures forall n :: WithCount(Insert(t, x), n) == WithCount(t, n) + (if x.1 == n then [x] else [])
    decreases |t|
  {
    if |t| == 0 || t[|t| - 1].1 >= x.1 {
      WithCountAll(t, x);
    } else {
      var init, last := t[..|t| - 1], t[|t| - 1];
      assert t == init + [last];
      InsertItems(init, x);
      var u := Insert(init, x);
      assert Insert(t, x) == u + [last];
      assert multiset(u + [last]) == multiset(u) + multiset{last};
      forall n ensures WithCount(u + [last], n) == WithCount(t, n) + (if x.1 == n then [x] else []) {
        InsertStep(init, last, x, u, n);
      }
    }
  }

  lemma InsertStep(init: Counter, last: (string, nat), x: (string, nat), u: Counter, n: nat)
    requires last.1 < x.1
    requires WithCount(u, n) == WithCount(init, n) + (if x.1 == n then [x] else [])
    ensures WithCount(u + [last], n) == WithCount(init + [last], n) + (if x.1 == n then [x] else [])
  {
    WithCountSnoc(u, last, n);
    WithCountSnoc(init, last, n);
    if x.1 == n {
      InsertStepSame(WithCount(init, n), WithCount(u, n), x);
    } else {
      InsertStepOther(WithCount(init, n), WithCount(u, n), if last.1 == n then [last] else []);
    }
  }

  lemma InsertStepSame(a: Counter, b: Counter, x: (string, nat))
    requires b == a + [x]
    ensures b + [] == a + [] + [x]
  {
  }

  lemma InsertStepOther(a: Counter, b: Counter, l: Counter)
    requires b == a + []
    ensures b + l == a + l + []
  {
  }

  lemma WithCountAll(t: Counter, x: (string, nat))
    ensures forall n :: WithCount(t + [x], n) == WithCount(t, n) + (if x.1 == n then [x] else [])
  {
    forall n ensures WithCount(t + [x], n) == WithCount(t, n) + (if x.1 == n then [x] else []) {
      WithCountSnoc(t, x, n);
    }
  }

  /** `sorted(items, key=count, reverse=True)`: an insertion sort. */
  function SortByCount(c: Counter): (r: Counter)
    ensures NonIncreasing(r)
    decreases |c|
  {
    if |c| == 0 then []
    else Insert(SortByCount(c[..|c| - 1]), c[|c| - 1])
  }

  /** The sort is a permutation, and it is stable: the items with any one
      count come out in the order they went in, as Python's stable sort
      with `reverse=True` keeps them. */
  lemma {:induction false} SortItems(c: Counter)
    ensures multiset(SortByCount(c)) == multiset(c)
    ensures forall n :: WithCount(SortByCount(c), n) == WithCount(c, n)
    decreases |c|
  {
    if |c| > 0 {
      var init := c[..|c| - 1];
      assert c == init + [c[|c| - 1]];
      SortItems(init);
      InsertItems(SortByCount(init), c[|c| - 1]);
      WithCountAll(init, c[|c| - 1]);
    }
  }

  /** `xs[:n]` for a Python int `n`: a negative `n` drops items from the end. */
  function Slice<T>(xs: seq<T>, n: int): (r: seq<T>)
    ensures r <= xs
    ensures n >= 0 ==> |r| == if n < |xs| then n else |xs|
    ensures n < 0 ==> |r| == if |xs| + n > 0 then |xs| + n else 0
  {
    if n >= 0 then (if n < |xs| then xs[..n] else xs)
    else if |xs| + n > 0 then xs[..|xs| + n]
    else []
  }

  /** What `get_top_intents` returns. */
  function TopIntents(results: seq<TriageResult>, topN: int): Counter {
    Slice(SortByCount(Tally(Intents(results))), topN)
  }

  /** `get_top_intents`: a counting loop, then a stable descending sort and
      a slice. */
  method GetTopIntents(results: seq<TriageResult>, topN: int) returns (top: Counter)
    ensures top == TopIntents(results, topN)
  {
    var intentCount: Counter := [];
    var i := 0;
    while i < |results|
      invariant 0 <= i <= |results|
      invariant intentCount == Tally(Intents(results[..i]))
    {
      var intent := results[i].intent;
      assert results[..i + 1][..i] == results[..i];
      TallySnoc(Intents(results[..i]), intent);
      intentCount := Increment(intentCount, intent);
      i := i + 1;
    }
    assert results[..i] == results;
    var sortedIntents := SortByCount(intentCount);
    top := Slice(sortedIntents, topN);
  }

  /** The top intents: at most `topN` of them, counts never increasing, each
      paired with how many results have it, and items with equal counts in
      the order the intents first appear. */
  lemma TopIntentsFacts(results: seq<TriageResult>, topN: int)
    ensures topN >= 0 ==> |TopIntents(results, topN)| <= topN
    ensures NonIncreasing(TopIntents(results, topN))
    ensures forall p | p in TopIntents(results, topN) :: p.0 in Intents(results) && p.1 == Occurrences(Intents(results), p.0)
    ensures forall n :: WithCount(TopIntents(results, topN), n) <= WithCount(Tally(Intents(results)), n)
  {
    var c := Tally(Intents(results));
    var s := SortByCount(c);
    var top := TopIntents(results, topN);
    SortItems(c);
    forall p | p in top ensures p.0 in Intents(results) && p.1 == Occurrences(Intents(results), p.0) {
      assert p in multiset(s);
      assert p in multiset(c);
      EntryOfTally(Intents(results), p);
    }
    forall n ensures WithCount(top, n) <= WithCount(c, n) {
      WithCountPrefix(top, s, n);
    }
  }

  /** Every item of a tally pairs a counted name with its number of occurrences. */
  lemma EntryOfTally(keys: seq<string>, p: (string, nat))
    requires p in Tally(keys)
    ensures p.0 in keys && p.1 == Occurrences(keys, p.0)
  {
    var c := Tally(keys);
    TallyKeys(keys);
    TallyCounts(keys);
    var i :| 0 <= i < |c| && c[i] == p;
    EntryLookup(c, i);
  }

  /** With no key twice, looking up an item's key finds that item's count. */
  lemma {:induction false} EntryLookup(c: Counter, i: nat)
    requires i < |c| && EntityExtractor.Distinct(KeysOf(c))
    ensures c[i].0 in KeysOf(c) && Lookup(c, c[i].0) == c[i].1
    decreases |c|
  {
    assert KeysOf(c)[0] == c[0].0;
    if i > 0 {
      assert KeysOf(c)[1..] == KeysOf(c[1..]);
      EntryLookup(c[1..], i - 1);
    }
  }

  lemma {:induction false} WithCountPrefix(a: Counter, b: Counter, n: nat)
    requires a <= b
    ensures WithCount(a, n) <= WithCount(b, n)
    decreases |b|
  {
    if |a| < |b| {
      assert a <= b[..|b| - 1];
      WithCountPrefix(a, b[..|b| - 1], n);
    } else {
      assert a == b;
    }
  }

  /** A non-empty batch has a top intent; an empty one has none. */
  lemma TopIntentsEmpty(results: seq<TriageResult>, topN: int)
    requires topN > 0
    ensures |TopIntents(results, topN)| > 0 <==> |results| > 0
  {
    TallyKeys(Intents(results));
    var c := Tally(Intents(results));
    assert |SortByCount(c)| == |c| by {
      SortItems(c);
      assert |multiset(SortByCount(c))| == |multiset(c)|;
    }
  }

  // ---------------------------------------------------------------------
  // common_patterns (lines 45-80)

  /** The five pattern names, in the dictionary's declaration order. */
  const PatternNames: seq<string> := [
    "payment + hardship", "payment + dispute", "third party + escalation",
    "multiple escalation triggers", "abusive without supervisor escalation"]

  /** Whether result `r` shows pattern `p`. The intent is compared with
      "payment" and the risk level with "high", as written. */
  predicate Shows(p: nat, r: TriageResult)
    requires p < 5
  {
    var codes := CodeNames(r.reasonCodes);
    if p == 0 then r.intent == "payment" && ("HARDSHIP_LANGUAGE" in codes || "LOAN_MOD_REQUEST" in codes)
    else if p == 1 then r.intent == "payment" && "DISPUTE_FEE_OR_CHARGE" in codes
    else if p == 2 then "THIRD_PARTY_CALLER" in codes && r.escalate
    else if p == 3 then r.riskLevel == "high"
    else "ABUSIVE_LANGUAGE" in codes && "SUPERVISOR_REQUEST" !in codes
  }

  /** The number of results showing pattern `p`. */
  function PatternCount(p: nat, results: seq<TriageResult>): (n: nat)
    requires p < 5
    ensures n <= |results|
    decreases |results|
  {
    if |results| == 0 then 0
    else PatternCount(p, results[..|results| - 1]) + (if Shows(p, results[|results| - 1]) then 1 else 0)
  }

  /** The pattern dictionary's counts after the loop. */
  function PatternCounts(results: seq<TriageResult>): (counts: seq<nat>)
    ensures |counts| == 5
  {
    seq(5, p requires 0 <= p < 5 => PatternCount(p, results))
  }

  /** One report line: `f"{pattern} ({count} occurrences)"`. */
  function PatternLine(name: string, n: nat): string {
    name + " (" + NatToString(n) + " occurrences)"
  }

  /** The comprehension over the dictionary's items: a line for each pattern
      with a positive count, in order. */
  function Lines(names: seq<string>, counts: seq<nat>): seq<string>
    requires |names| == |counts|
    decreases |counts|
  {
    if |counts| == 0 then []
    else (if counts[0] > 0 then [PatternLine(names[0], counts[0])] else []) + Lines(names[1..], counts[1..])
  }

  /** The lines are exactly those of the patterns with a positive count: none
      when every count is zero. */
  lemma {:induction false} LinesFacts(names: seq<string>, counts: seq<nat>)
    requires |names| == |counts|
    ensures |Lines(names, counts)| <= |counts|
    ensures Lines(names, counts) == [] <==> forall p | 0 <= p < |counts| :: counts[p] == 0
    ensures forall l | l in Lines(names, counts) :: exists p | 0 <= p < |counts| :: counts[p] > 0 && l == PatternLine(names[p], counts[p])
    ensures forall p | 0 <= p < |counts| && counts[p] > 0 :: PatternLine(names[p], counts[p]) in Lines(names, counts)
    decreases |counts|
  {
    if |counts| > 0 {
      LinesFacts(names[1..], counts[1..]);
      assert forall p | 1 <= p < |counts| :: counts[1..][p - 1] == counts[p] && names[1..][p - 1] == names[p];
    }
  }

  /** `common_patterns`: a loop bumping the pattern counters, then the
      comprehension. */
  method CommonPatterns(results: seq<TriageResult>) returns (lines: seq<string>)
    ensures lines == Lines(PatternNames, PatternCounts(results))
  {
    var patterns: seq<nat> := [0, 0, 0, 0, 0];
    var i := 0;
    while i < |results|
      invariant 0 <= i <= |results|
      invariant patterns == PatternCounts(results[..i])
    {
      var result := results[i];
      ghost var before := patterns;
      var reasonCodes := CodeNames(result.reasonCodes);
      if result.intent == "payment" && ("HARDSHIP_LANGUAGE" in reasonCodes || "LOAN_MOD_REQUEST" in reasonCodes) {
        patterns := patterns[0 := patterns[0] + 1];
      }
      assert patterns[0] == before[0] + (if Shows(0, result) then 1 else 0);
      if result.intent == "payment" && "DISPUTE_FEE_OR_CHARGE" in reasonCodes {
        patterns := patterns[1 := patterns[1] + 1];
      }
      assert patterns[1] == before[1] + (if Shows(1, result) then 1 else 0);
      if "THIRD_PARTY_CALLER" in reasonCodes && result.escalate {
        patterns := patterns[2 := patterns[2] + 1];
      }
      assert patterns[2] == before[2] + (if Shows(2, result) then 1 else 0);
      if result.riskLevel == "high" {
        patterns := patterns[3 := patterns[3] + 1];
      }
      assert patterns[3] == before[3] + (if Shows(3, result) then 1 else 0);
      if "ABUSIVE_LANGUAGE" in reasonCodes && "SUPERVISOR_REQUEST" !in reasonCodes {
        patterns := patterns[4 := patterns[4] + 1];
      }
      assert results[..i + 1] == results[..i] + [result];
      PatternStep(results[..i], result, before, patterns);
      i := i + 1;
    }
    assert results[..i] == results;
    lines := Lines(PatternNames, patterns);
  }

  lemma PatternStep(rs: seq<TriageResult>, r: TriageResult, before: seq<nat>, after: seq<nat>)
    requires before == PatternCounts(rs) && |after| == 5
    requires after[0] == before[0] + (if Shows(0, r) then 1 else 0)
    requires after[1] == before[1] + (if Shows(1, r) then 1 else 0)
    requires after[2] == before[2] + (if Shows(2, r) then 1 else 0)
    requires after[3] == before[3] + (if Shows(3, r) then 1 else 0)
    requires after[4] == before[4] + (if Shows(4, r) then 1 else 0)
    ensures after == PatternCounts(rs + [r])
  {
    assert (rs + [r])[..|rs|] == rs;
    forall p | 0 <= p < 5 ensures after[p] == PatternCounts(rs + [r])[p] {
      assert after[p] == before[p] + (if Shows(p, r) then 1 else 0) by {
        if p == 0 {} else if p == 1 {} else if p == 2 {} else if p == 3 {} else {}
      }
    }
  }

  /** A result whose risk level is one the escalation engine returns. */
  predicate FromEngine(r: TriageResult) {
    r.riskLevel in RiskNames
  }

  /** The escalation engine names its levels in upper case, so on results
      whose risk level it produced "multiple escalation triggers" never counts. */
  lemma {:induction false} HighPatternNeverCounts(results: seq<TriageResult>)
    requires forall i | 0 <= i < |results| :: FromEngine(results[i])
    ensures PatternCount(3, results) == 0
    decreases |results|
  {
    if |results| > 0 {
      var n := |results| - 1;
      assert forall i | 0 <= i < n :: results[..n][i] == results[i];
      HighPatternNeverCounts(results[..n]);
      assert results[n].riskLevel != "high";
    }
  }

  /** When no result has the intent "payment", the two "payment" patterns
      never count. */
  lemma {:induction false} PaymentPatternsNeverCount(results: seq<TriageResult>)
    requires forall i | 0 <= i < |results| :: results[i].intent != "payment"
    ensures PatternCount(0, results) == 0 && PatternCount(1, results) == 0
    decreases |results|
  {
    if |results| > 0 {
      var n := |results| - 1;
      assert forall i | 0 <= i < n :: results[..n][i] == results[i];
      PaymentPatternsNeverCount(results[..n]);
      assert !Shows(0, results[n]) && !Shows(1, results[n]);
    }
  }

  /** The classifier answers "NONE" or an upper-case code name, never "payment". */
  lemma ClassifierNeverSaysPayment(rcs: seq<ReasonCode>)
    ensures IntentClassifier.Intent(rcs) != "payment"
  {
  }

  /** A result whose intent is the classifier's answer for its codes. */
  predicate FromClassifier(r: TriageResult) {
    r.intent == IntentClassifier.Intent(r.reasonCodes)
  }

  /** So on results whose intent comes from the classifier and whose risk
      level from the escalation engine, at most the third and the fifth
      pattern are reported. */
  lemma ClassifierOutputPatterns(results: seq<TriageResult>)
    requires forall i | 0 <= i < |results| :: FromClassifier(results[i]) && FromEngine(results[i])
    ensures forall l | l in Lines(PatternNames, PatternCounts(results)) ::
      l == PatternLine(PatternNames[2], PatternCount(2, results)) || l == PatternLine(PatternNames[4], PatternCount(4, results))
  {
    ClassifierPaymentPatterns(results);
    HighPatternNeverCounts(results);
    ZeroPatternsDropped(results);
  }

  /** The results the pipeline builds from a batch of transcripts report at
      most the third and the fifth pattern. */
  lemma PipelineOutputPatterns(contents: seq<string>)
    ensures var results := seq(|contents|, i requires 0 <= i < |contents| => TriagePipeline.Triage(contents[i]));
      PatternCount(3, results) == 0 &&
      forall l | l in Lines(PatternNames, PatternCounts(results)) ::
        l == PatternLine(PatternNames[2], PatternCount(2, results)) || l == PatternLine(PatternNames[4], PatternCount(4, results))
  {
    var results := seq(|contents|, i requires 0 <= i < |contents| => TriagePipeline.Triage(contents[i]));
    forall i | 0 <= i < |results| ensures FromClassifier(results[i]) && FromEngine(results[i]) {
      assert results[i] == TriagePipeline.Triage(contents[i]);
    }
    HighPatternNeverCounts(results);
    ClassifierOutputPatterns(results);
  }

  lemma ClassifierPaymentPatterns(results: seq<TriageResult>)
    requires forall i | 0 <= i < |results| :: FromClassifier(results[i])
    ensures PatternCount(0, results) == 0 && PatternCount(1, results) == 0
  {
    forall i | 0 <= i < |results| ensures results[i].intent != "payment" {
      ClassifierNeverSaysPayment(results[i].reasonCodes);
    }
    PaymentPatternsNeverCount(results);
  }

  lemma ZeroPatternsDropped(results: seq<TriageResult>)
    requires PatternCount(0, results) == 0 && PatternCount(1, results) == 0 && PatternCount(3, results) == 0
    ensures forall l | l in Lines(PatternNames, PatternCounts(results)) ::
      l == PatternLine(PatternNames[2], PatternCount(2, results)) || l == PatternLine(PatternNames[4], PatternCount(4, results))
  {
    var counts := PatternCounts(results);
    assert counts[0] == 0 && counts[1] == 0 && counts[3] == 0;
    assert counts[2] == PatternCount(2, results) && counts[4] == PatternCount(4, results);
    OnlyThirdAndFifth(counts);
  }

  lemma OnlyThirdAndFifth(counts: seq<nat>)
    requires |counts| == 5 && counts[0] == 0 && counts[1] == 0 && counts[3] == 0
    ensures forall l | l in Lines(PatternNames, counts) ::
      l == PatternLine(PatternNames[2], counts[2]) || l == PatternLine(PatternNames[4], counts[4])
  {
    LinesFacts(PatternNames, counts);
    forall l | l in Lines(PatternNames, counts)
      ensures l == PatternLine(PatternNames[2], counts[2]) || l == PatternLine(PatternNames[4], counts[4])
    {
      var p :| 0 <= p < 5 && counts[p] > 0 && l == PatternLine(PatternNames[p], counts[p]);
      assert p != 0 && p != 1 && p != 3;
    }
  }

  // ---------------------------------------------------------------------
  // generate_csv (lines 97-124)

  /** The number of tenths `.1f` shows, rounded to nearest. */
  function Tenths(x: real): (t: nat)
    requires x >= 0.0
    ensures t as real - 0.5 <= 10.0 * x < t as real + 0.5
  {
    (10.0 * x + 0.5).Floor
  }

  /** `f"{x:.1f}"` for a non-negative number. */
  function OneDecimal(x: real): string
    requires x >= 0.0
  {
    var t := Tenths(x);
    NatToString(t / 10) + "." + [DigitChar(t % 10)]
  }

  function Zeros(k: nat): string {
    seq(k, _ => '0')
  }

  /** `f"{n:03d}"`: at least three digits, padded with leading zeros. */
  function ZeroPad3(n: nat): string {
    var s := NatToString(n);
    if |s| >= 3 then s else Zeros(3 - |s|) + s
  }

  /** The index of the first item with the largest count: Python's `max`
      keeps the first of equal maxima. */
  function TopItem(c: Counter): (i: nat)
    requires |c| > 0
    ensures i < |c|
    ensures forall j | 0 <= j < |c| :: c[j].1 <= c[i].1
    ensures forall j | 0 <= j < i :: c[j].1 < c[i].1
    decreases |c|
  {
    if |c| == 1 then 0
    else
      var i := TopItem(c[..|c| - 1]);
      if c[|c| - 1].1 > c[i].1 then |c| - 1 else i
  }

  /** `str(b)` for a Python bool. */
  function BoolName(b: bool): string {
    if b then "True" else "False"
  }

  /** The file name of result number `i` (from 0). */
  function FileName(i: nat): string {
    "transcript_" + ZeroPad3(i + 1) + ".txt"
  }

  /** The columns after the file name: intent, escalation, risk level, the
      codes joined by '|' and the bullets joined by " | ". */
  function Fields(r: TriageResult): string {
    r.intent + "," + BoolName(r.escalate) + "," + r.riskLevel + "," +
      Join(CodeNames(r.reasonCodes), "|") + "," + Join(r.summaryBullets, " | ")
  }

  /** The data row for result number `i`. */
  function Row(i: nat, r: TriageResult): string {
    FileName(i) + "," + Fields(r) + "\n"
  }

  /** The data rows of the batch, in order. */
  function Rows(results: seq<TriageResult>): string
    decreases |results|
  {
    if |results| == 0 then ""
    else Rows(results[..|results| - 1]) + Row(|results| - 1, results[|results| - 1])
  }

  const DataHeader: string := "filename,intent,escalate,risk_level,reason_codes,summary\n"

  /** One summary line: `f"{name},{value}\n"`. */
  function Line(name: string, value: string): string {
    name + "," + value + "\n"
  }

  /** `f"{name} ({count})"`. */
  function Labelled(item: (string, nat)): string {
    item.0 + " (" + NatToString(item.1) + ")"
  }

  /** The first two summary lines. */
  function Opening(total: nat): string {
    "SUMMARY METRICS\n" + Line("Total Transcripts", NatToString(total))
  }

  /** The summary lines after the total. */
  function Metrics(rate: real, topIntent: (string, nat), topReason: (string, nat), patterns: seq<string>): string
    requires rate >= 0.0
  {
    Line("Escalation Rate", OneDecimal(rate) + "%") + Line("Top Intent", Labelled(topIntent)) +
      Line("Top Reason Code", Labelled(topReason)) +
      (if |patterns| > 0 then Line("Common Patterns", Join(patterns, "; ")) else "")
  }

  /** The summary section, or the exception building it raises:
      `top_intents[0]` raises IndexError when there is no top intent, and
      `max` raises ValueError over an empty reason-code count. */
  function Summary(total: nat, rate: real, topIntents: Counter, reasonCounts: Counter, patterns: seq<string>): Result<string, Error>
    requires rate >= 0.0
  {
    if |topIntents| == 0 then Err(IndexError)
    else if |reasonCounts| == 0 then Err(ValueError)
    else Ok(Opening(total) + Metrics(rate, topIntents[0], reasonCounts[TopItem(reasonCounts)], patterns))
  }

  /** What `generate_csv` returns or raises. */
  function Csv(results: seq<TriageResult>): Result<string, Error> {
    match Summary(|results|, EscalationRate(results), TopIntents(results, 3), Tally(AllCodes(results)),
      Lines(PatternNames, PatternCounts(results)))
    case Err(e) => Err(e)
    case Ok(head) => Ok(head + Tail(results))
  }

  /** The blank line, the data header and the rows. */
  function Tail(results: seq<TriageResult>): string {
    "\n" + DataHeader + Rows(results)
  }

  /** The summary lines of `generate_csv`, appended one at a time. */
  method SummaryLines(total: nat, escRate: real, topIntents: Counter, reasonCounts: Counter, patterns: seq<string>)
    returns (r: Result<string, Error>)
    requires escRate >= 0.0
    ensures r == Summary(total, escRate, topIntents, reasonCounts, patterns)
  {
    var csv := "SUMMARY METRICS\n";
    csv := csv + Line("Total Transcripts", NatToString(total));
    ghost var opening := csv;
    var rateLine := Line("Escalation Rate", OneDecimal(escRate) + "%");
    csv := csv + rateLine;
    if |topIntents| == 0 {
      return Err(IndexError);
    }
    var intentLine := Line("Top Intent", Labelled(topIntents[0]));
    Associative(opening, rateLine, intentLine);
    csv := csv + intentLine;
    if |reasonCounts| == 0 {
      return Err(ValueError);
    }
    var topReason := TopItem(reasonCounts);
    var reasonLine := Line("Top Reason Code", Labelled(reasonCounts[topReason]));
    Associative(opening, rateLine + intentLine, reasonLine);
    csv := csv + reasonLine;
    if |patterns| > 0 {
      var patternLine := Line("Common Patterns", Join(patterns, "; "));
      Associative(opening, rateLine + intentLine + reasonLine, patternLine);
      csv := csv + patternLine;
    } else {
      assert csv == opening + (rateLine + intentLine + reasonLine + "");
    }
    r := Ok(csv);
  }

  /** `generate_csv`: the metrics, the summary lines, a blank line, the
      header and one row per result. */
  method GenerateCsv(results: seq<TriageResult>) returns (r: Result<string, Error>)
    ensures r == Csv(results)
  {
    var total := |results|;
    var escRate := CalculateEscalationRate(results);
    var topIntents := GetTopIntents(results, 3);
    var reasonCounts := CountReasonCodes(results);
    var patterns := CommonPatterns(results);
    var summary := SummaryLines(total, escRate, topIntents, reasonCounts, patterns);
    if summary.Err? {
      return Err(summary.error);
    }
    var csv := summary.value + "\n";
    csv := csv + DataHeader;
    ghost var head := csv;
    var i := 0;
    while i < |results|
      invariant 0 <= i <= |results|
      invariant csv == head + Rows(results[..i])
    {
      RowsSnoc(results, i);
      Associative(head, Rows(results[..i]), Row(i, results[i]));
      csv := csv + Row(i, results[i]);
      i := i + 1;
    }
    assert results[..i] == results;
    Associative(summary.value + "\n", DataHeader, Rows(results));
    Associative(summary.value, "\n", DataHeader + Rows(results));
    Associative("\n", DataHeader, Rows(results));
    assert csv == summary.value + Tail(results);
    r := Ok(csv);
  }

  lemma RowsSnoc(results: seq<TriageResult>, i: nat)
    requires i < |results|
    ensures Rows(results[..i + 1]) == Rows(results[..i]) + Row(i, results[i])
  {
    assert results[..i + 1][..i] == results[..i];
  }

  lemma Associative(a: string, b: string, c: string)
    ensures a + b + c == a + (b + c)
  {
  }

  lemma PrefixConcat(a: string, b: string, c: string)
    requires a <= b
    ensures a <= b + c
  {
    assert (b + c)[..|a|] == b[..|a|];
  }

  /** The report exists exactly when the batch is non-empty and some result
      has a reason code; an empty batch raises IndexError, and a batch with
      no reason codes at all raises ValueError. */
  lemma CsvOutcome(results: seq<TriageResult>)
    ensures Csv(results).Ok? <==> |results| > 0 && |AllCodes(results)| > 0
    ensures |results| == 0 ==> Csv(results) == Err(IndexError)
    ensures |results| > 0 && |AllCodes(results)| == 0 ==> Csv(results) == Err(ValueError)
  {
    TopIntentsEmpty(results, 3);
    TallyKeys(AllCodes(results));
  }

  /** A report opens with the summary metrics and the batch size, and ends
      with the data header followed by one row per result. */
  lemma CsvLayout(results: seq<TriageResult>)
    requires Csv(results).Ok?
    ensures Opening(|results|) <= Csv(results).value
    ensures exists head :: Csv(results).value == head + Tail(results)
  {
    var summary := Summary(|results|, EscalationRate(results), TopIntents(results, 3), Tally(AllCodes(results)),
      Lines(PatternNames, PatternCounts(results)));
    SummaryOpening(|results|, EscalationRate(results), TopIntents(results, 3), Tally(AllCodes(results)),
      Lines(PatternNames, PatternCounts(results)));
    PrefixConcat(Opening(|results|), summary.value, Tail(results));
  }

  lemma SummaryOpening(total: nat, rate: real, topIntents: Counter, reasonCounts: Counter, patterns: seq<string>)
    requires rate >= 0.0 && Summary(total, rate, topIntents, reasonCounts, patterns).Ok?
    ensures Opening(total) <= Summary(total, rate, topIntents, reasonCounts, patterns).value
  {
    var rest := Metrics(rate, topIntents[0], reasonCounts[TopItem(reasonCounts)], patterns);
    assert Summary(total, rate, topIntents, reasonCounts, patterns).value == Opening(total) + rest;
    assert (Opening(total) + rest)[..|Opening(total)|] == Opening(total);
  }

  /** The rows are, in order, one line per result, each starting with its
      file name. */
  lemma {:induction false} RowsLayout(results: seq<TriageResult>, i: nat)
    requires i < |results|
    ensures exists before, after :: Rows(results) == before + Row(i, results[i]) + after
    decreases |results|
  {
    var n := |results| - 1;
    if i == n {
      assert Rows(results) == Rows(results[..n]) + Row(i, results[i]) + "";
    } else {
      RowsLayout(results[..n], i);
      var before, after :| Rows(results[..n]) == before + Row(i, results[..n][i]) + after;
      assert results[..n][i] == results[i];
      Associative(before + Row(i, results[i]), after, Row(n, results[n]));
    }
  }

  /** Each row starts with its file name. */
  lemma RowStartsWithName(i: nat, r: TriageResult)
    ensures FileName(i) + "," <= Row(i, r)
  {
    assert Row(i, r) == (FileName(i) + ",") + (Fields(r) + "\n");
  }

  /** A padded file number reads back as the number: the row names of
      different results differ. */
  lemma ZeroPad3Value(n: nat)
    ensures |ZeroPad3(n)| >= 3 && (n < 1000 ==> |ZeroPad3(n)| == 3)
    ensures forall i | 0 <= i < |ZeroPad3(n)| :: IsDigit(ZeroPad3(n)[i])
    ensures DigitsValue(ZeroPad3(n)) == n
  {
    var s := NatToString(n);
    NatToStringValue(n);
    NatToStringShort(n);
    if |s| < 3 {
      LeadingZeros(3 - |s|, s);
    }
  }

  lemma {:induction false} NatToStringShort(n: nat)
    ensures n < 1000 ==> |NatToString(n)| <= 3
    ensures n >= 100 ==> |NatToString(n)| >= 3
    decreases n
  {
    if n >= 10 {
      NatToStringShort(n / 10);
    }
  }

  /** Leading zeros do not change the value of a digit string. */
  lemma {:induction false} LeadingZeros(k: nat, s: string)
    requires forall i | 0 <= i < |s| :: IsDigit(s[i])
    ensures forall i | 0 <= i < k + |s| :: IsDigit((Zeros(k) + s)[i])
    ensures DigitsValue(Zeros(k) + s) == DigitsValue(s)
    decreases k + |s|
  {
    var z := Zeros(k);
    var t := z + s;
    assert forall i | 0 <= i < |t| :: t[i] == if i < k then '0' else s[i - k];
    if |s| > 0 {
      var m := |s| - 1;
      LeadingZeros(k, s[..m]);
      assert t[..|t| - 1] == z + s[..m];
    } else if k > 0 {
      LeadingZeros(k - 1, s);
      assert t[..|t| - 1] == Zeros(k - 1) + s;
    }
  }

  /** Different results get different file names. */
  lemma RowNamesDistinct(i: nat, j: nat)
    requires i != j
    ensures ZeroPad3(i + 1) != ZeroPad3(j + 1)
  {
    ZeroPad3Value(i + 1);
    ZeroPad3Value(j + 1);
  }
}
