/** A small backtracking matcher in the style of Python's `re`, enough for the
    fixed patterns of the entity extractor.

    A pattern piece applied at position `i` of a text yields the END positions
    it can reach, in the order the backtracking engine would try them: a
    greedy repetition lists its longest run first, an alternation lists its
    branches left to right, and `x?` lists "take x" before "skip x". Chaining
    pieces (`Then`) keeps that order, so the first end of a whole pattern is
    the match `re` reports. Matching ignores ASCII case, as IGNORECASE does. */
module Scan {
  import opened Text
  import opened Records

  /** Every end in `ends` lies between `lo` and the end of the text. */
  predicate Within(s: string, ends: seq<nat>, lo: nat) {
    forall e | e in ends :: lo <= e <= |s|
  }

  lemma WithinTail(s: string, ends: seq<nat>, lo: nat)
    requires ends != [] && Within(s, ends, lo)
    ensures Within(s, ends[1..], lo)
  {
    forall e | e in ends[1..] ensures lo <= e <= |s| {
      assert e in ends;
    }
  }

  /** Runs piece `f` from every end in `ends`, in order (sequencing two pieces). */
  function Then(s: string, ends: seq<nat>, f: nat -> seq<nat>): (r: seq<nat>)
    ensures forall lo: nat :: Within(s, ends, lo) && (forall k | k in ends :: Within(s, f(k), k)) ==> Within(s, r, lo)
    ensures forall lo: nat :: Within(s, ends, lo) && (forall k | k in ends :: Within(s, f(k), k + 1)) ==> Within(s, r, lo + 1)
    decreases |ends|
  {
    if ends == [] then []
    else
      var r := f(ends[0]) + Then(s, ends[1..], f);
      assert forall lo: nat :: Within(s, ends, lo) && (forall k | k in ends :: Within(s, f(k), k + 1)) ==> Within(s, r, lo + 1) by {
        forall lo: nat | Within(s, ends, lo) && (forall k | k in ends :: Within(s, f(k), k + 1))
          ensures Within(s, r, lo + 1)
        {
          assert ends[0] in ends;
          WithinTail(s, ends, lo);
          assert Within(s, Then(s, ends[1..], f), lo + 1);
          assert Within(s, f(ends[0]), lo + 1);
        }
      }
      assert forall lo: nat :: Within(s, ends, lo) && (forall k | k in ends :: Within(s, f(k), k)) ==> Within(s, r, lo) by {
        forall lo: nat | Within(s, ends, lo) && (forall k | k in ends :: Within(s, f(k), k))
          ensures Within(s, r, lo)
        {
          assert ends[0] in ends;
          WithinTail(s, ends, lo);
          assert Within(s, Then(s, ends[1..], f), lo);
          assert Within(s, f(ends[0]), lo);
        }
      }
      r
  }

  /** An end of a chain is an end of the second piece run from an end of the first. */
  lemma {:induction false} ThenMember(s: string, ends: seq<nat>, f: nat -> seq<nat>, e: nat)
    requires e in Then(s, ends, f)
    ensures exists k | k in ends :: e in f(k)
    decreases |ends|
  {
    if e !in f(ends[0]) {
      ThenMember(s, ends[1..], f, e);
      var k :| k in ends[1..] && e in f(k);
      assert k in ends;
    }
  }

  /** The end of the first piece that an end of a chain was reached from. */
  lemma ThenWitness(s: string, ends: seq<nat>, f: nat -> seq<nat>, e: nat) returns (k: nat)
    requires e in Then(s, ends, f)
    ensures k in ends && e in f(k)
  {
    ThenMember(s, ends, f, e);
    k :| k in ends && e in f(k);
  }

  /** Chaining from nothing reaches nothing. */
  lemma ThenEmpty(s: string, ends: seq<nat>, f: nat -> seq<nat>)
    requires forall k | k in ends :: f(k) == []
    ensures Then(s, ends, f) == []
    decreases |ends|
  {
    if ends != [] {
      assert ends[0] in ends;
      ThenEmpty(s, ends[1..], f);
    }
  }

  /** The literal `w` (lower case) at `i`, compared ignoring ASCII case. */
  function Lit(s: string, i: nat, w: string): (r: seq<nat>)
    ensures Within(s, r, i + |w|)
    ensures r == [] || r == [i + |w|]
  {
    if i + |w| <= |s| && Lower(s[i..i + |w|]) == w then [i + |w|] else []
  }

  /** The alternation of the literals `ws`, in order. */
  function Lits(s: string, i: nat, ws: seq<string>): (r: seq<nat>)
    ensures Within(s, r, i)
    ensures (forall k | 0 <= k < |ws| :: |ws[k]| > 0) ==> Within(s, r, i + 1)
    ensures forall e | e in r :: exists k | 0 <= k < |ws| :: e == i + |ws[k]| && Lower(s[i..e]) == ws[k]
    decreases |ws|
  {
    if ws == [] then []
    else
      var r := Lit(s, i, ws[0]) + Lits(s, i, ws[1..]);
      assert forall e | e in r :: exists k | 0 <= k < |ws| :: e == i + |ws[k]| && Lower(s[i..e]) == ws[k] by {
        forall e | e in r ensures exists k | 0 <= k < |ws| :: e == i + |ws[k]| && Lower(s[i..e]) == ws[k] {
          if e in Lit(s, i, ws[0]) {
            assert e == i + |ws[0]| && Lower(s[i..e]) == ws[0];
          } else {
            var k :| 0 <= k < |ws[1..]| && e == i + |ws[1..][k]| && Lower(s[i..e]) == ws[1..][k];
            assert ws[1..][k] == ws[k + 1];
          }
        }
      }
      r
  }

  /** The number of characters from `i` on that satisfy `p`. */
  function RunLen(s: string, i: nat, p: char -> bool): (n: nat)
    ensures i + n <= |s| || n == 0
    ensures forall j :: i <= j < i + n ==> p(s[j])
    ensures i + n < |s| ==> !p(s[i + n])
    decreases |s| - i
  {
    if i < |s| && p(s[i]) then 1 + RunLen(s, i + 1, p) else 0
  }

  /** `hi`, `hi - 1`, ..., `lo`: the order in which a greedy repetition gives back characters. */
  function Down(hi: nat, lo: nat): (r: seq<nat>)
    ensures forall e | e in r :: lo <= e <= hi
    ensures forall e :: lo <= e <= hi ==> e in r
    decreases hi - lo
  {
    if hi < lo then [] else [hi] + (if hi == lo then [] else Down(hi - 1, lo))
  }

  /** The greedy repetition `[p]{min,max}` at `i`. */
  function Repeat(s: string, i: nat, p: char -> bool, min: nat, max: nat): (r: seq<nat>)
    ensures Within(s, r, i + min)
    ensures forall e | e in r :: e <= |s| && e - i <= max && forall j :: i <= j < e ==> p(s[j])
  {
    var n := RunLen(s, i, p);
    var m := if n < max then n else max;
    if i > |s| || m < min then [] else Down(i + m, i + min)
  }

  /** The greedy repetition `[p]*` (`min` = 0) or `[p]+` (`min` = 1) at `i`. */
  function Many(s: string, i: nat, p: char -> bool, min: nat): (r: seq<nat>)
    ensures Within(s, r, i + min)
    ensures forall e | e in r :: e <= |s| && forall j :: i <= j < e ==> p(s[j])
  {
    Repeat(s, i, p, min, |s|)
  }

  /** One character satisfying `p`. */
  function Char(s: string, i: nat, p: char -> bool): (r: seq<nat>)
    ensures Within(s, r, i + 1)
    ensures r != [] ==> i < |s| && r == [i + 1] && p(s[i])
  {
    if i < |s| && p(s[i]) then [i + 1] else []
  }

  /** The optional piece `x?` at `i`: first with `x`, then without. (A position
      past the end of the text never arises; it is left out to keep ends in range.) */
  function Opt(s: string, ends: seq<nat>, i: nat): (r: seq<nat>)
    ensures Within(s, ends, i) ==> Within(s, r, i)
  {
    ends + (if i <= |s| then [i] else [])
  }

  /** The alternation `a|b`: the ends of `a`, then those of `b`. */
  function Alt(s: string, a: seq<nat>, b: seq<nat>): (r: seq<nat>)
    ensures forall lo: nat :: Within(s, a, lo) && Within(s, b, lo) ==> Within(s, r, lo)
  {
    a + b
  }

  /** `\b`: exactly one side of position `e` is a word character. */
  predicate IsBoundary(s: string, e: nat) {
    (0 < e <= |s| && IsWordChar(s[e - 1])) != (e < |s| && IsWordChar(s[e]))
  }

  /** `(?<!\w)` at `e`: the character before `e`, if any, is not a word character. */
  predicate NoWordBefore(s: string, e: nat) {
    e == 0 || e > |s| || !IsWordChar(s[e - 1])
  }

  /** `(?!\w)` at `e`: the character at `e`, if any, is not a word character. */
  predicate NoWordAfter(s: string, e: nat) {
    e >= |s| || !IsWordChar(s[e])
  }

  /** Keeps the ends that pass a zero-width test, in order. */
  function Keep(s: string, ends: seq<nat>, ok: nat -> bool): (r: seq<nat>)
    ensures forall lo: nat :: Within(s, ends, lo) ==> Within(s, r, lo)
    ensures forall e :: e in r <==> e in ends && ok(e)
    decreases |ends|
  {
    if ends == [] then []
    else
      var r := (if ok(ends[0]) then [ends[0]] else []) + Keep(s, ends[1..], ok);
      assert forall lo: nat :: Within(s, ends, lo) ==> Within(s, r, lo) by {
        forall lo: nat | Within(s, ends, lo) ensures Within(s, r, lo) {
          assert forall e | e in ends[1..] :: e in ends;
          assert Within(s, ends[1..], lo);
          assert Within(s, Keep(s, ends[1..], ok), lo);
          assert ends[0] in ends;
        }
      }
      r
  }

  /** The first end the engine would try. */
  function First(ends: seq<nat>): (r: Option<nat>)
    ensures r.Some? <==> ends != []
    ensures r.Some? ==> r.value in ends
  {
    if ends == [] then None else Some(ends[0])
  }

  /** A capture group that opens at one of `starts` and whose continuation is `f`:
      the first start (in order) from which the continuation succeeds, with its
      first end. This is the group backtracking settles on. */
  function FirstPair(starts: seq<nat>, f: nat -> seq<nat>): (r: Option<(nat, nat)>)
    ensures r.Some? ==> r.value.0 in starts && r.value.1 in f(r.value.0) && r.value.1 == f(r.value.0)[0]
    ensures r.None? <==> forall k | k in starts :: f(k) == []
    decreases |starts|
  {
    if starts == [] then None
    else if f(starts[0]) != [] then Some((starts[0], f(starts[0])[0]))
    else
      var r := FirstPair(starts[1..], f);
      assert forall k | k in starts[1..] :: k in starts;
      assert r.None? ==> forall k | k in starts :: f(k) == [] by {
        if r.None? {
          forall k | k in starts ensures f(k) == [] {
            if k != starts[0] {
              assert k in starts[1..];
            }
          }
        }
      }
      r
  }

  /** One match: where it starts, and the span of the group the caller keeps
      (a capture group, or the whole match). */
  datatype Hit = Hit(start: nat, groupStart: nat, end: nat)

  /** A matcher over `s`: at each position it reports at most the one match that
      starts there, and that match is non-empty and inside the text. */
  predicate IsMatcher(s: string, m: nat -> Option<Hit>) {
    forall q: nat :: q <= |s| && m(q).Some? ==> m(q).value.start == q <= m(q).value.groupStart < m(q).value.end <= |s|
  }

  /** `re.finditer` from position `p`: the leftmost match, then the search
      resumes where it ended. */
  function FindIter(s: string, m: nat -> Option<Hit>, p: nat): (hits: seq<Hit>)
    requires IsMatcher(s, m)
    ensures forall h | h in hits :: p <= h.start <= h.groupStart < h.end <= |s|
    decreases |s| + 1 - p
  {
    if p > |s| then []
    else
      match m(p)
      case None => FindIter(s, m, p + 1)
      case Some(h) => [h] + FindIter(s, m, h.end)
  }

  /** The text each hit keeps. */
  function Captured(s: string, hits: seq<Hit>): (texts: seq<string>)
    requires forall h | h in hits :: h.groupStart <= h.end <= |s|
    ensures |texts| == |hits|
    ensures forall k | 0 <= k < |hits| :: texts[k] == s[hits[k].groupStart..hits[k].end]
  {
    seq(|hits|, k requires 0 <= k < |hits| => s[hits[k].groupStart..hits[k].end])
  }

  /** Every hit is the matcher's own match at its start. */
  lemma {:induction false} FindIterSound(s: string, m: nat -> Option<Hit>, p: nat, h: Hit)
    requires IsMatcher(s, m) && h in FindIter(s, m, p)
    ensures h.start <= |s| && m(h.start) == Some(h)
    decreases |s| + 1 - p
  {
    match m(p)
    case None => FindIterSound(s, m, p + 1, h);
    case Some(h0) =>
      if h != h0 {
        FindIterSound(s, m, h0.end, h);
      }
  }

  /** Every text kept from a scan is the group of the matcher's own match at some position. */
  lemma CapturedSound(s: string, m: nat -> Option<Hit>, t: string) returns (h: Hit)
    requires IsMatcher(s, m) && t in Captured(s, FindIter(s, m, 0))
    ensures h.start <= |s| && m(h.start) == Some(h)
    ensures h.groupStart <= h.end <= |s| && t == s[h.groupStart..h.end]
  {
    var hits := FindIter(s, m, 0);
    var k :| 0 <= k < |hits| && Captured(s, hits)[k] == t;
    h := hits[k];
    assert h in hits;
    FindIterSound(s, m, 0, h);
  }

  /** Each hit ends before the next one starts. */
  predicate InTextOrder(hits: seq<Hit>) {
    forall a, b | 0 <= a < b < |hits| :: hits[a].end <= hits[b].start
  }

  /** Hits come in text order and never overlap. */
  lemma {:induction false} FindIterOrdered(s: string, m: nat -> Option<Hit>, p: nat)
    requires IsMatcher(s, m)
    ensures InTextOrder(FindIter(s, m, p))
    decreases |s| + 1 - p
  {
    if p <= |s| {
      match m(p)
      case None =>
        FindIterOrdered(s, m, p + 1);
        assert FindIter(s, m, p) == FindIter(s, m, p + 1);
      case Some(h) =>
        FindIterOrdered(s, m, h.end);
        var rest := FindIter(s, m, h.end);
        var hits := [h] + rest;
        assert FindIter(s, m, p) == hits;
        forall a, b | 0 <= a < b < |hits| ensures hits[a].end <= hits[b].start {
          assert hits[b] == rest[b - 1];
          if a == 0 {
            assert rest[b - 1] in rest;
          } else {
            assert hits[a] == rest[a - 1];
          }
        }
    }
  }

  /** No matcher finds anything in the empty text. */
  lemma FindIterEmpty(m: nat -> Option<Hit>)
    requires IsMatcher("", m)
    ensures FindIter("", m, 0) == []
  {
    assert m(0).None?;
  }

  /** No match is skipped: every position from `p` on where the matcher succeeds
      is the start of a hit or lies inside one. */
  lemma {:induction false} FindIterComplete(s: string, m: nat -> Option<Hit>, p: nat, q: nat)
    requires IsMatcher(s, m) && p <= q <= |s| && m(q).Some?
    ensures exists h | h in FindIter(s, m, p) :: h.start <= q < h.end
    decreases |s| + 1 - p
  {
    match m(p)
    case None =>
      FindIterComplete(s, m, p + 1, q);
    case Some(h) =>
      assert h in FindIter(s, m, p);
      if q >= h.end {
        FindIterComplete(s, m, h.end, q);
        var h1 :| h1 in FindIter(s, m, h.end) && h1.start <= q < h1.end;
        assert h1 in FindIter(s, m, p);
      }
  }
}
