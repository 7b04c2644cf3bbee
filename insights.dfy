/** The insight-list parser inside `get_health_insights`
    (agent/health_agent_integration.py, lines 99-109): split the reply text into
    lines, clean each line, and keep the substantial ones in order. */
module InsightParser {
  import opened PyText

  /** The bullet characters `lstrip('•-*')` removes. */
  const Markers := "•-*"

  /** The most insights `get_health_insights` returns. */
  const MaxInsights := 4

  /** A cleaned line is kept when it is longer than this. */
  const MinLength := 20

  /** Line 104: a line whose first character is a digit loses everything up to
      and including its first '.', and is then stripped; any other line is left
      as it is. */
  function DropNumbering(b: string): (r: string)
    ensures b == [] || !IsDigit(b[0]) ==> r == b
    ensures b != [] && IsDigit(b[0]) && '.' !in b ==> r == []
    ensures b != [] && IsDigit(b[0]) && '.' in b ==> r == Strip(b[FirstIndex(b, '.') + 1..])
  {
    if b != [] && IsDigit(b[0]) then Strip(AfterFirst(b, '.')) else b
  }

  /** Lines 101-104: what the loop body turns one raw line into. The result is
      always stripped of surrounding whitespace. */
  function CleanLine(raw: string): (r: string)
    ensures IsTrimmed(r)
  {
    var stripped := Strip(raw);
    var unbulleted := Strip(LStrip(stripped, Markers));
    DropNumbering(unbulleted)
  }

  /** Line 106: the test a cleaned line must pass to be kept. */
  predicate Keep(line: string) {
    |line| > MinLength
  }

  /** Every line after the cleaning steps, position by position. */
  function CleanAll(lines: seq<string>): (r: seq<string>)
    ensures |r| == |lines|
  {
    if lines == [] then [] else CleanAll(lines[..|lines| - 1]) + [CleanLine(lines[|lines| - 1])]
  }

  lemma {:induction false} CleanAllAt(lines: seq<string>, i: nat)
    requires i < |lines|
    ensures CleanAll(lines)[i] == CleanLine(lines[i])
  {
    if i < |lines| - 1 {
      var init := lines[..|lines| - 1];
      CleanAllAt(init, i);
      assert init[i] == lines[i];
    }
  }

  /** Every cleaned line is stripped of surrounding whitespace. */
  lemma CleanAllTrimmed(lines: seq<string>)
    ensures forall s :: s in CleanAll(lines) ==> IsTrimmed(s)
  {
    forall s | s in CleanAll(lines) ensures IsTrimmed(s) {
      var i :| 0 <= i < |lines| && CleanAll(lines)[i] == s;
      CleanAllAt(lines, i);
    }
  }

  lemma {:induction false} CleanAllAppend(a: seq<string>, b: seq<string>)
    ensures CleanAll(a + b) == CleanAll(a) + CleanAll(b)
  {
    var l, r := CleanAll(a + b), CleanAll(a) + CleanAll(b);
    forall i | 0 <= i < |l| ensures l[i] == r[i] {
      CleanAllAt(a + b, i);
      if i < |a| { CleanAllAppendLeft(a, b, i); } else { CleanAllAppendRight(a, b, i - |a|); }
    }
    assert l == r;
  }

  /** Positions of `CleanAllAppend` that fall in `a`, and those that fall in `b`. */
  lemma {:induction false} CleanAllAppendLeft(a: seq<string>, b: seq<string>, i: nat)
    requires i < |a|
    ensures CleanLine((a + b)[i]) == (CleanAll(a) + CleanAll(b))[i]
  {
    assert (a + b)[i] == a[i];
    CleanAllAt(a, i);
  }

  lemma {:induction false} CleanAllAppendRight(a: seq<string>, b: seq<string>, j: nat)
    requires j < |b|
    ensures CleanLine((a + b)[|a| + j]) == (CleanAll(a) + CleanAll(b))[|a| + j]
  {
    assert (a + b)[|a| + j] == b[j];
    CleanAllAt(b, j);
  }

  /** Line 106 over cleaned lines: those longer than 20 characters, in order. */
  function KeepLong(cleaned: seq<string>): (r: seq<string>)
    ensures |r| <= |cleaned|
    ensures forall i :: 0 <= i < |r| ==> Keep(r[i]) && r[i] in cleaned
  {
    if cleaned == [] then []
    else
      var line := cleaned[|cleaned| - 1];
      KeepLong(cleaned[..|cleaned| - 1]) + (if Keep(line) then [line] else [])
  }

  /** The cleaned lines that pass the length test, in input order: trimmed and
      longer than 20 characters. */
  function Survivors(lines: seq<string>): (r: seq<string>)
    ensures |r| <= |lines|
    ensures forall i :: 0 <= i < |r| ==> IsTrimmed(r[i]) && |r[i]| > MinLength
  {
    CleanAllTrimmed(lines);
    KeepLong(CleanAll(lines))
  }

  /** One more line either adds its cleaned form to the survivors or nothing. */
  lemma SurvivorsSnoc(lines: seq<string>, n: nat)
    requires n < |lines|
    ensures Survivors(lines[..n + 1]) ==
      Survivors(lines[..n]) + (if Keep(CleanLine(lines[n])) then [CleanLine(lines[n])] else [])
  {
    assert lines[..n + 1] == lines[..n] + [lines[n]];
    CleanAllAppend(lines[..n], [lines[n]]);
    KeepLongAppend(CleanAll(lines[..n]), CleanAll([lines[n]]));
    assert CleanAll([lines[n]]) == [CleanLine(lines[n])];
    assert [CleanLine(lines[n])][..0] == [];
  }

  /** Lines 99-107: the loop over `text.split('\n')`, reassigning `line` once per
      cleaning step and appending the lines that pass the length test. */
  method ParseInsights(text: string) returns (insights: seq<string>)
    ensures insights == Survivors(Lines(text))
  {
    var lines := Lines(text);
    insights := [];
    for n := 0 to |lines|
      invariant insights == Survivors(lines[..n])
    {
      ghost var raw := lines[n];
      var line := lines[n];
      line := Strip(line);
      line := Strip(LStrip(line, Markers));
      line := DropNumbering(line);
      assert line == CleanLine(raw);
      if line != [] && |line| > MinLength {
        insights := insights + [line];
      }
      SurvivorsSnoc(lines, n);
    }
    assert lines[..|lines|] == lines;
  }

  /** Line 109 on a non-empty list: its first `MaxInsights` entries. */
  function FirstInsights(insights: seq<string>): (r: seq<string>)
    ensures |r| <= MaxInsights
    ensures |r| == if |insights| < MaxInsights then |insights| else MaxInsights
    ensures r == insights[..|r|]
  {
    if |insights| <= MaxInsights then insights else insights[..MaxInsights]
  }

  lemma {:induction false} KeepLongAppend(a: seq<string>, b: seq<string>)
    ensures KeepLong(a + b) == KeepLong(a) + KeepLong(b)
    decreases |b|
  {
    if b == [] {
      assert a + b == a;
    } else {
      var b0 := b[..|b| - 1];
      assert (a + b)[..|a + b| - 1] == a + b0;
      assert (a + b)[|a + b| - 1] == b[|b| - 1];
      KeepLongAppend(a, b0);
    }
  }

  /** Parsing two blocks of lines one after the other keeps the survivors of
      each, in order. */
  lemma SurvivorsAppend(a: seq<string>, b: seq<string>)
    ensures Survivors(a + b) == Survivors(a) + Survivors(b)
  {
    CleanAllAppend(a, b);
    KeepLongAppend(CleanAll(a), CleanAll(b));
  }

  lemma {:induction false} KeepLongMembers(cleaned: seq<string>, s: string)
    ensures s in KeepLong(cleaned) <==> s in cleaned && Keep(s)
  {
    if cleaned != [] {
      var init := cleaned[..|cleaned| - 1];
      KeepLongMembers(init, s);
      assert cleaned == init + [cleaned[|cleaned| - 1]];
    }
  }

  /** A string is a survivor exactly when it is the cleaned form of some input
      line and is longer than 20 characters. */
  lemma SurvivorsMembers(lines: seq<string>, s: string)
    ensures s in Survivors(lines) <==>
      Keep(s) && exists i :: 0 <= i < |lines| && s == CleanLine(lines[i])
  {
    var cleaned := CleanAll(lines);
    KeepLongMembers(cleaned, s);
    if s in cleaned {
      var i :| 0 <= i < |cleaned| && cleaned[i] == s;
      CleanAllAt(lines, i);
    }
    if exists i :: 0 <= i < |lines| && s == CleanLine(lines[i]) {
      var i :| 0 <= i < |lines| && s == CleanLine(lines[i]);
      CleanAllAt(lines, i);
    }
  }

  /** A line already in clean form: what `CleanLine` leaves untouched. */
  predicate IsClean(line: string) {
    IsTrimmed(line) && (line == [] || (line[0] !in Markers && !IsDigit(line[0])))
  }

  lemma CleanLineFixesClean(line: string)
    requires IsClean(line)
    ensures CleanLine(line) == line
  {
    StripTrimmed(line);
  }

  lemma {:induction false} KeepLongKeepsAll(cleaned: seq<string>)
    requires forall i :: 0 <= i < |cleaned| ==> Keep(cleaned[i])
    ensures KeepLong(cleaned) == cleaned
  {
    if cleaned != [] {
      var init := cleaned[..|cleaned| - 1];
      KeepLongKeepsAll(init);
      assert cleaned == init + [cleaned[|cleaned| - 1]];
    }
  }

  /** Lines that are already clean and long enough all survive, unchanged and in
      order. */
  lemma CleanLinesSurvive(lines: seq<string>)
    requires forall i :: 0 <= i < |lines| ==> IsClean(lines[i]) && Keep(lines[i])
    ensures Survivors(lines) == lines
  {
    forall i | 0 <= i < |lines| ensures CleanAll(lines)[i] == lines[i] {
      CleanAllAt(lines, i);
      CleanLineFixesClean(lines[i]);
    }
    assert CleanAll(lines) == lines;
    KeepLongKeepsAll(lines);
  }

  /** A reply whose text is clean lines longer than 20 characters, one per line,
      parses back to exactly those lines, in their original order. */
  lemma JoinedCleanLinesParse(lines: seq<string>)
    requires |lines| >= 1
    requires forall i :: 0 <= i < |lines| ==> IsClean(lines[i]) && Keep(lines[i]) && '\n' !in lines[i]
    ensures Survivors(Lines(JoinLines(lines))) == lines
  {
    LinesOfJoin(lines);
    CleanLinesSurvive(lines);
  }

  /** A line whose cleaned form has 20 characters or fewer contributes
      nothing. */
  lemma DroppedLine(raw: string)
    requires !Keep(CleanLine(raw))
    ensures Survivors([raw]) == []
  {
    assert CleanAll([raw]) == [CleanLine(raw)];
    assert [CleanLine(raw)][..0] == [];
  }

  /** The bullet step removes the whole leading run of marker characters, and
      the second strip removes the whitespace between the run and the text: a
      line made of optional indentation, such a run, optional whitespace and a
      clean, non-numbered text ("- Assess ...", "  • Assess ...", "**Assess")
      comes out as that text. */
  lemma {:induction false} BulletRunRemoved(w1: string, run: string, gap: string, body: string, w2: string)
    requires AllSpace(w1) && AllSpace(gap) && AllSpace(w2)
    requires forall i :: 0 <= i < |run| ==> run[i] in Markers
    requires body != [] && IsClean(body)
    ensures CleanLine(w1 + run + gap + body + w2) == body
  {
    var s := w1 + run + gap + body + w2;
    var unbulleted := Strip(LStrip(Strip(s), Markers));
    UnbulletedLine(w1, run, gap, body, w2);
    assert unbulleted == body;
    assert DropNumbering(body) == body;
  }

  /** The first strip and the bullet step of `BulletRunRemoved`. */
  lemma UnbulletedLine(w1: string, run: string, gap: string, body: string, w2: string)
    requires AllSpace(w1) && AllSpace(gap) && AllSpace(w2)
    requires forall i :: 0 <= i < |run| ==> run[i] in Markers
    requires body != [] && IsClean(body)
    ensures Strip(LStrip(Strip(w1 + run + gap + body + w2), Markers)) == body
  {
    if run == [] {
      assert w1 + run + gap + body + w2 == (w1 + gap) + body + w2;
      UnindentedBody(w1 + gap, body, w2);
    } else {
      assert w1 + run + gap + body + w2 == w1 + (run + gap + body) + w2;
      StripKeepsRun(w1, run, gap + body, w2);
      assert run + gap + body == run + (gap + body);
      MarkersThenGap(run, gap, body);
    }
  }

  /** Without a run, the first strip already yields the clean text. */
  lemma UnindentedBody(w1: string, body: string, w2: string)
    requires AllSpace(w1) && AllSpace(w2)
    requires body != [] && IsClean(body)
    ensures Strip(LStrip(Strip(w1 + body + w2), Markers)) == body
  {
    StripUnique(w1, body, w2);
    LStripSkipsRun([], body, Markers);
    assert [] + body == body;
    StripTrimmed(body);
  }

  /** The first strip keeps a marker-led line intact up to its clean end. */
  lemma StripKeepsRun(w1: string, run: string, rest: string, w2: string)
    requires AllSpace(w1) && AllSpace(w2)
    requires run != [] && run[0] in Markers
    requires rest != [] && !IsSpace(rest[|rest| - 1])
    ensures Strip(w1 + (run + rest) + w2) == run + rest
  {
    var t := run + rest;
    assert t[0] == run[0] && t[|t| - 1] == rest[|rest| - 1];
    StripUnique(w1, t, w2);
  }

  /** The bullet step and the second strip on a marker run, a gap and the text. */
  lemma MarkersThenGap(run: string, gap: string, body: string)
    requires AllSpace(gap)
    requires forall i :: 0 <= i < |run| ==> run[i] in Markers
    requires body != [] && IsClean(body)
    ensures Strip(LStrip(run + (gap + body), Markers)) == body
  {
    var rest := gap + body;
    assert rest[0] !in Markers by {
      if gap == [] { assert rest[0] == body[0]; } else { assert rest[0] == gap[0]; }
    }
    LStripSkipsRun(run, rest, Markers);
    assert rest == gap + body + "";
    StripUnique(gap, body, "");
  }

  /** The run ends at the first character that is not a marker, whitespace
      included: bullets separated from the run by a space survive. */
  lemma SpaceEndsBulletRun()
    ensures CleanLine("-- * item") == "* item"
  {
    var s := "-- * item";
    assert s[0] == '-' && s[1] == '-' && s[2] == ' ';
    StripTrimmed(s);
    SkipCharsStops(s, Markers, 0, 2);
    assert LStrip(s, Markers) == " " + "* item" + "";
    StripUnique(" ", "* item", "");
  }

  /** A line without surrounding whitespace that starts with a digit loses
      everything through its first '.': for "3.2% rise..." that is "3.". */
  lemma NumberedLineCut(pre: string, post: string)
    requires pre != [] && IsDigit(pre[0]) && '.' !in pre
    requires IsTrimmed(pre + "." + post)
    ensures CleanLine(pre + "." + post) == Strip(post)
  {
    var s := pre + "." + post;
    assert s[0] == pre[0];
    StripTrimmed(s);
    assert SkipChars(s, Markers, 0) == 0;
    assert s == pre + ("." + post);
    FirstIndexAt(pre, "." + post, '.');
    assert s[|pre| + 1..] == post;
  }

  /** The numbering rule cuts inside a decimal number. */
  lemma DecimalNumberCut()
    ensures CleanLine("3" + "." + "2% rise in ER visits") == "2% rise in ER visits"
  {
    var tail := "2% rise in ER visits";
    assert tail[0] == '2' && tail[|tail| - 1] == 's';
    var s := "3" + "." + tail;
    assert s[0] == '3' && s[|s| - 1] == 's';
    NumberedLineCut("3", tail);
    StripTrimmed(tail);
  }

  /** A line without surrounding whitespace that starts with a digit and has no
      '.' at all, such as "1) Expand outreach", becomes empty and is dropped. */
  lemma NumberedLineWithoutDot(s: string)
    requires IsTrimmed(s) && s != [] && IsDigit(s[0]) && '.' !in s
    ensures CleanLine(s) == []
    ensures Survivors([s]) == []
  {
    StripTrimmed(s);
    assert SkipChars(s, Markers, 0) == 0;
    DroppedLine(s);
  }
}
