/** engines/transcriptParser.py: turns raw call text into a `Transcript` with a
    normalised copy of the text and the set of speaker labels. */
module TranscriptParser {
  import opened Text
  import opened Records

  /** What normalisation produces: lower case, every whitespace character a
      plain space, no space at either end and never two spaces in a row. */
  predicate IsNormalized(s: string) {
    (forall i :: 0 <= i < |s| ==> !IsUpper(s[i]) && (IsSpace(s[i]) ==> s[i] == ' ')) &&
    (|s| > 0 ==> s[0] != ' ' && s[|s| - 1] != ' ') &&
    (forall i :: 0 <= i < |s| - 1 ==> s[i] != ' ' || s[i + 1] != ' ')
  }

  /** `_normalize_text`: lower-case, then re-join the whitespace-separated words with single spaces. */
  function NormalizeText(raw: string): (r: string)
    ensures IsNormalized(r)
    ensures r == "" <==> forall i :: 0 <= i < |raw| ==> IsSpace(raw[i])
  {
    var ws := Words(Lower(raw));
    LowerWordsAreLowerWords(raw);
    JoinWordsNormalized(ws);
    JoinEmpty(ws);
    LowerKeepsSpaces(raw);
    WordsEmpty(Lower(raw));
    Join(ws, " ")
  }

  lemma LowerKeepsSpaces(raw: string)
    ensures forall i :: 0 <= i < |raw| ==> (IsSpace(Lower(raw)[i]) <==> IsSpace(raw[i]))
  {
  }

  lemma LowerWordsAreLowerWords(raw: string)
    ensures forall k :: 0 <= k < |Words(Lower(raw))| ==>
      IsWord(Words(Lower(raw))[k]) && IsLowerCased(Words(Lower(raw))[k])
  {
    var l := Lower(raw);
    WordsAreWords(l);
    forall k | 0 <= k < |Words(l)| ensures IsLowerCased(Words(l)[k]) {
      var w := Words(l)[k];
      forall i | 0 <= i < |w| ensures !IsUpper(w[i]) {
        assert w[i] in w;
        assert w[i] in l;
        var j :| 0 <= j < |l| && l[j] == w[i];
      }
    }
  }

  lemma JoinEmpty(ws: seq<string>)
    requires forall k :: 0 <= k < |ws| ==> IsWord(ws[k])
    ensures Join(ws, " ") == "" <==> ws == []
  {
    if |ws| > 1 {
      assert |Join(ws, " ")| >= |ws[0]| + 1;
    }
  }

  /** Lower-case words joined by single spaces form a normalised text. */
  lemma {:induction false} JoinWordsNormalized(ws: seq<string>)
    requires forall k :: 0 <= k < |ws| ==> IsWord(ws[k]) && IsLowerCased(ws[k])
    ensures IsNormalized(Join(ws, " "))
    decreases |ws|
  {
    if |ws| > 1 {
      var w := ws[0];
      var r := Join(ws[1..], " ");
      JoinWordsNormalized(ws[1..]);
      JoinEmpty(ws[1..]);
      var s := w + " " + r;
      assert Join(ws, " ") == s;
      assert forall i :: 0 <= i < |w| ==> s[i] == w[i];
      assert s[|w|] == ' ';
      assert forall i :: |w| < i < |s| ==> s[i] == r[i - |w| - 1];
      forall i | 0 <= i < |s| - 1 ensures s[i] != ' ' || s[i + 1] != ' ' {
        if i < |w| - 1 {
        } else if i == |w| - 1 {
        } else if i == |w| {
          assert s[i + 1] == r[0];
        } else {
          assert s[i] == r[i - |w| - 1] && s[i + 1] == r[i - |w|];
        }
      }
    } else if |ws| == 1 {
      assert Join(ws, " ") == ws[0];
    }
  }

  /** Normalising keeps the words of the text, lower-cased: it changes only the whitespace between them. */
  lemma NormalizeKeepsWords(raw: string)
    ensures Words(NormalizeText(raw)) == Words(Lower(raw))
  {
    LowerWordsAreLowerWords(raw);
    WordsOfJoin(Words(Lower(raw)));
  }

  /** Normalising a normalised text changes nothing. */
  lemma NormalizeIdempotent(raw: string)
    ensures NormalizeText(NormalizeText(raw)) == NormalizeText(raw)
  {
    var n := NormalizeText(raw);
    LowerOfLowerCased(n);
    NormalizeKeepsWords(raw);
  }

  /** The label of one line: the text before its first colon, stripped. */
  function SpeakerOf(line: string): string {
    Strip(Split(line, ':')[0])
  }

  /** The label a line contributes: the text before its first colon, if it has one. */
  function LineLabel(line: string): Option<string> {
    if ':' in line then Some(SpeakerOf(line)) else None
  }

  /** The labels `tag` gives to the elements of `xs`, gathered into a set. */
  function Labelled<T, L>(xs: seq<T>, tag: T -> Option<L>): set<L>
    decreases |xs|
  {
    if |xs| == 0 then {}
    else
      var x := xs[|xs| - 1];
      Labelled(xs[..|xs| - 1], tag) + (if tag(x).Some? then {tag(x).value} else {})
  }

  /** The labels of a sequence of lines: one per line that has a colon. */
  function LineSpeakers(lines: seq<string>): set<string> {
    Labelled(lines, LineLabel)
  }

  /** The speaker labels of a text. */
  function Speakers(raw: string): set<string> {
    LineSpeakers(Split(raw, '\n'))
  }

  /** The line carries the tag: it has a colon and `s` is its text before the first one. */
  predicate Labels(line: string, s: string) {
    ':' in line && SpeakerOf(line) == s
  }

  /** A tag is gathered exactly when some element is given it. */
  lemma {:induction false} LabelledMembership<T, L(!new)>(xs: seq<T>, tag: T -> Option<L>, s: L)
    ensures s in Labelled(xs, tag) <==> exists k | 0 <= k < |xs| :: tag(xs[k]) == Some(s)
    decreases |xs|
  {
    if |xs| > 0 {
      var n := |xs| - 1;
      var init := xs[..n];
      LabelledMembership(init, tag, s);
      if s in Labelled(xs, tag) && s !in Labelled(init, tag) {
        assert tag(xs[n]) == Some(s);
      }
      if exists k | 0 <= k < |xs| :: tag(xs[k]) == Some(s) {
        var k :| 0 <= k < |xs| && tag(xs[k]) == Some(s);
        if k < n {
          assert init[k] == xs[k];
        }
      }
    }
  }

  /** A label is collected exactly when some line with a colon carries it. */
  lemma LineSpeakersMembership(lines: seq<string>, s: string)
    ensures s in LineSpeakers(lines) <==> exists k | 0 <= k < |lines| :: Labels(lines[k], s)
  {
    LabelledMembership(lines, LineLabel, s);
    forall k | 0 <= k < |lines| ensures LineLabel(lines[k]) == Some(s) <==> Labels(lines[k], s) {
    }
  }

  /** `_getSpeakers`: walks the lines of the text and collects each label once. */
  method GetSpeakers(raw: string) returns (speakers: set<string>)
    ensures speakers == Speakers(raw)
  {
    speakers := {};
    var lines := Split(raw, '\n');
    var i := 0;
    while i < |lines|
      invariant 0 <= i <= |lines|
      invariant speakers == LineSpeakers(lines[..i])
    {
      var line := lines[i];
      if ':' in line {
        speakers := speakers + {SpeakerOf(line)};
      }
      assert lines[..i + 1][..i] == lines[..i];
      i := i + 1;
    }
    assert lines[..i] == lines;
  }

  /** A label is the stripped text in front of the first colon of its line. */
  lemma SpeakerBeforeFirstColon(tag: string, rest: string)
    requires ':' !in tag
    ensures SpeakerOf(tag + ":" + rest) == Strip(tag)
  {
    SplitFirst(tag, ':', rest);
  }

  /** Every character of a stripped text comes from the text. */
  lemma StripWithin(t: string)
    ensures forall c :: c in Strip(t) ==> c in t
  {
    StripShape(t);
    var r := Strip(t);
    var a: nat, b: nat :| a <= b <= |t| && r == t[a..b];
    forall c | c in r ensures c in t {
      var j :| 0 <= j < |r| && r[j] == c;
      assert t[a + j] == c;
    }
  }

  /** The label of one line holds no colon, nothing the line lacks, and no surrounding whitespace. */
  lemma SpeakerOfShape(line: string)
    ensures ':' !in SpeakerOf(line)
    ensures forall c :: c in SpeakerOf(line) ==> c in line
    ensures |SpeakerOf(line)| > 0 ==> !IsSpace(SpeakerOf(line)[0]) && !IsSpace(SpeakerOf(line)[|SpeakerOf(line)| - 1])
  {
    SplitPieces(line, ':');
    var head := Split(line, ':')[0];
    StripShape(head);
    StripWithin(head);
  }

  /** Labels never hold a colon, a line break or surrounding whitespace. */
  lemma SpeakerShape(raw: string, s: string)
    requires s in Speakers(raw)
    ensures ':' !in s && '\n' !in s
    ensures |s| > 0 ==> !IsSpace(s[0]) && !IsSpace(s[|s| - 1])
  {
    var lines := Split(raw, '\n');
    LineSpeakersMembership(lines, s);
    var k :| 0 <= k < |lines| && Labels(lines[k], s);
    SplitPieces(raw, '\n');
    assert '\n' !in lines[k];
    SpeakerOfShape(lines[k]);
  }

  /** A line that opens with a colon contributes the empty label. */
  lemma EmptyLabelKept(before: string, rest: string)
    requires ':' !in rest && '\n' !in rest
    ensures "" in Speakers(before + "\n:" + rest)
  {
    var raw := before + "\n:" + rest;
    var line := ":" + rest;
    assert raw == before + ['\n'] + line;
    SplitLast(before, '\n', line);
    assert line in Split(raw, '\n');
    SpeakerBeforeFirstColon("", rest);
    assert "" + ":" + rest == line;
    LineSpeakersMembership(Split(raw, '\n'), "");
  }

  /** The last piece of a split, when the text after the last separator is free of it. */
  lemma {:induction false} SplitLast(a: string, c: char, b: string)
    requires c !in b
    ensures Split(a + [c] + b, c)[|Split(a + [c] + b, c)| - 1] == b
    decreases |a|
  {
    var s := a + [c] + b;
    if |a| == 0 {
      SplitAbsent(b, c);
      assert s[1..] == b;
    } else {
      SplitLast(a[1..], c, b);
      assert s[1..] == a[1..] + [c] + b;
      var rest := Split(s[1..], c);
      if s[0] != c {
        if |rest| == 1 {
          assert rest[0] == b;
          assert s[1..] == a[1..] + [c] + b;
          SplitCount(a[1..], c, b);
        }
      }
    }
  }

  /** A text with a separator splits into at least two pieces. */
  lemma {:induction false} SplitCount(a: string, c: char, b: string)
    ensures |Split(a + [c] + b, c)| >= 2
    decreases |a|
  {
    var s := a + [c] + b;
    if |a| == 0 {
      assert s[0] == c;
    } else {
      SplitCount(a[1..], c, b);
      assert s[1..] == a[1..] + [c] + b;
    }
  }

  /** A text without colons names no speakers. */
  lemma NoColonNoSpeakers(raw: string)
    requires ':' !in raw
    ensures Speakers(raw) == {}
  {
    SplitPieces(raw, '\n');
    forall line | line in Split(raw, '\n') ensures ':' !in line {
      var k :| 0 <= k < |Split(raw, '\n')| && Split(raw, '\n')[k] == line;
    }
    forall s ensures s !in Speakers(raw) {
      LineSpeakersMembership(Split(raw, '\n'), s);
    }
  }

  /** `parse_transcript`; the clock reading that stamps the transcript is a parameter. */
  method ParseTranscript(raw: string, timestamp: string) returns (t: Transcript)
    ensures t.rawText == raw && t.timestamp == timestamp
    ensures t.normalizedText == NormalizeText(raw)
    ensures t.speakers == Speakers(raw)
  {
    var normalized := NormalizeText(raw);
    var speakers := GetSpeakers(raw);
    t := Transcript(raw, normalized, speakers, timestamp);
  }
}
