/** The few Python `str` operations the integration layer relies on:
    `strip()`, `lstrip(chars)`, `split('\n')`, `split(sep, 1)` and `isdigit()`.
    Whitespace is the ASCII part of `str.isspace`; digits are '0'..'9'. */
module PyText {

  /** ASCII characters for which Python's `str.isspace` holds. */
  predicate IsSpace(c: char) {
    c == ' ' || c == '\t' || c == '\n' || c == '\r' || c == '\U{0B}' || c == '\U{0C}'
    || ('\U{1C}' <= c <= '\U{1F}')
  }

  /** `c.isdigit()` restricted to the ASCII digits. */
  predicate IsDigit(c: char) {
    '0' <= c <= '9'
  }

  /** No whitespace at either end: what `strip()` leaves behind. */
  predicate IsTrimmed(s: string) {
    s == [] || (!IsSpace(s[0]) && !IsSpace(s[|s| - 1]))
  }

  predicate AllSpace(s: string) {
    forall i :: 0 <= i < |s| ==> IsSpace(s[i])
  }

  /** The first index at or after `i` that does not hold whitespace (or `|s|`). */
  function SkipSpace(s: string, i: nat): (k: nat)
    requires i <= |s|
    ensures i <= k <= |s|
    ensures k == |s| || !IsSpace(s[k])
    decreases |s| - i
  {
    if i < |s| && IsSpace(s[i]) then SkipSpace(s, i + 1) else i
  }

  /** Scanning down from `j` towards `lo`: the index just past the last character
      that is not whitespace (or `lo`). */
  function SkipSpaceBack(s: string, lo: nat, j: nat): (k: nat)
    requires lo <= j <= |s|
    ensures lo <= k <= j
    ensures k == lo || !IsSpace(s[k - 1])
    decreases j
  {
    if lo < j && IsSpace(s[j - 1]) then SkipSpaceBack(s, lo, j - 1) else j
  }

  /** `s.strip()`: the part of `s` between its leading and its trailing run of
      whitespace. */
  function Strip(s: string): (r: string)
    ensures IsTrimmed(r)
  {
    var i := SkipSpace(s, 0);
    s[i..SkipSpaceBack(s, i, |s|)]
  }

  /** What `SkipSpace` passes over is whitespace. */
  lemma {:induction false} SkipSpaceSkipsSpace(s: string, i: nat)
    requires i <= |s|
    ensures forall m :: i <= m < SkipSpace(s, i) ==> IsSpace(s[m])
    decreases |s| - i
  {
    if i < |s| && IsSpace(s[i]) { SkipSpaceSkipsSpace(s, i + 1); }
  }

  /** What `SkipSpaceBack` passes over is whitespace. */
  lemma {:induction false} SkipSpaceBackSkipsSpace(s: string, lo: nat, j: nat)
    requires lo <= j <= |s|
    ensures forall m :: SkipSpaceBack(s, lo, j) <= m < j ==> IsSpace(s[m])
    decreases j
  {
    if lo < j && IsSpace(s[j - 1]) { SkipSpaceBackSkipsSpace(s, lo, j - 1); }
  }

  /** `SkipSpace` stops at the first character that is not whitespace. */
  lemma {:induction false} SkipSpaceStops(s: string, i: nat, k: nat)
    requires i <= k <= |s|
    requires forall m :: i <= m < k ==> IsSpace(s[m])
    requires k == |s| || !IsSpace(s[k])
    ensures SkipSpace(s, i) == k
    decreases k - i
  {
    if i < k { SkipSpaceStops(s, i + 1, k); }
  }

  /** `SkipSpaceBack` stops just past the last character that is not whitespace. */
  lemma {:induction false} SkipSpaceBackStops(s: string, lo: nat, j: nat, k: nat)
    requires lo <= k <= j <= |s|
    requires forall m :: k <= m < j ==> IsSpace(s[m])
    requires k == lo || !IsSpace(s[k - 1])
    ensures SkipSpaceBack(s, lo, j) == k
    decreases j - k
  {
    if k < j { SkipSpaceBackStops(s, lo, j - 1, k); }
  }

  /** What `strip()` removes is whitespace on both sides of its result. */
  lemma StripMiddle(s: string)
    ensures exists i :: 0 <= i <= |s| - |Strip(s)| && Strip(s) == s[i..i + |Strip(s)|]
                        && AllSpace(s[..i]) && AllSpace(s[i + |Strip(s)|..])
  {
    var i := SkipSpace(s, 0);
    var j := SkipSpaceBack(s, i, |s|);
    SkipSpaceSkipsSpace(s, 0);
    SkipSpaceBackSkipsSpace(s, i, |s|);
    assert AllSpace(s[..i]) by {
      forall m | 0 <= m < i ensures IsSpace(s[..i][m]) { assert s[..i][m] == s[m]; }
    }
    assert AllSpace(s[j..]) by {
      forall m | 0 <= m < |s| - j ensures IsSpace(s[j..][m]) { assert s[j..][m] == s[j + m]; }
    }
  }

  /** A string that is already trimmed is left unchanged by `strip()`. */
  lemma StripTrimmed(s: string)
    requires IsTrimmed(s)
    ensures Strip(s) == s
  {
    assert SkipSpace(s, 0) == 0;
    if s != [] { assert SkipSpaceBack(s, 0, |s|) == |s|; }
  }

  /** `strip()` is determined by its contract: any split of `s` into a
      whitespace prefix, a trimmed middle and a whitespace suffix has `Strip(s)` as
      its middle. */
  lemma StripUnique(w1: string, t: string, w2: string)
    requires AllSpace(w1) && AllSpace(w2) && IsTrimmed(t)
    ensures Strip(w1 + t + w2) == t
  {
    var s := w1 + t + w2;
    var a, b := |w1|, |w1| + |t|;
    assert forall m :: 0 <= m < a ==> IsSpace(s[m]) by {
      forall m | 0 <= m < a ensures IsSpace(s[m]) { assert s[m] == w1[m]; }
    }
    assert forall m :: b <= m < |s| ==> IsSpace(s[m]) by {
      forall m | b <= m < |s| ensures IsSpace(s[m]) { assert s[m] == w2[m - b]; }
    }
    if t == [] {
      SkipSpaceStops(s, 0, |s|);
      assert s[|s|..|s|] == [];
    } else {
      assert s[a] == t[0] && s[b - 1] == t[|t| - 1];
      SkipSpaceStops(s, 0, a);
      SkipSpaceBackStops(s, a, |s|, b);
      assert s[a..b] == t;
    }
  }

  /** The first index at or after `i` whose character is not in `chars` (or `|s|`). */
  function SkipChars(s: string, chars: string, i: nat): (k: nat)
    requires i <= |s|
    ensures i <= k <= |s|
    ensures k == |s| || s[k] !in chars
    decreases |s| - i
  {
    if i < |s| && s[i] in chars then SkipChars(s, chars, i + 1) else i
  }

  /** `s.lstrip(chars)`: drop the leading run of characters that occur in `chars`.
      The run ends at the first character not in `chars`, whitespace included. */
  function LStrip(s: string, chars: string): (r: string)
    ensures |r| <= |s| && r == s[|s| - |r|..]
    ensures r == [] || r[0] !in chars
  {
    s[SkipChars(s, chars, 0)..]
  }

  /** What `lstrip(chars)` removes consists of characters in `chars` only. */
  lemma LStripRemovesChars(s: string, chars: string)
    ensures forall i :: 0 <= i < |s| - |LStrip(s, chars)| ==> s[i] in chars
  {
    SkipCharsSkipsChars(s, chars, 0);
  }

  lemma {:induction false} SkipCharsSkipsChars(s: string, chars: string, i: nat)
    requires i <= |s|
    ensures forall m :: i <= m < SkipChars(s, chars, i) ==> s[m] in chars
    decreases |s| - i
  {
    if i < |s| && s[i] in chars { SkipCharsSkipsChars(s, chars, i + 1); }
  }

  /** `lstrip(chars)` removes a whole leading run of `chars` and stops at the
      first other character. */
  lemma {:induction false} LStripSkipsRun(run: string, body: string, chars: string)
    requires forall i :: 0 <= i < |run| ==> run[i] in chars
    requires body != [] && body[0] !in chars
    ensures LStrip(run + body, chars) == body
  {
    var s := run + body;
    SkipCharsStops(s, chars, 0, |run|);
  }

  lemma {:induction false} SkipCharsStops(s: string, chars: string, i: nat, k: nat)
    requires i <= k < |s|
    requires forall m :: i <= m < k ==> s[m] in chars
    requires s[k] !in chars
    ensures SkipChars(s, chars, i) == k
    decreases k - i
  {
    if i < k { SkipCharsStops(s, chars, i + 1, k); }
  }

  /** Index of the first occurrence of `c` in `s`. */
  function FirstIndex(s: string, c: char): (k: nat)
    requires c in s
    ensures k < |s| && s[k] == c && c !in s[..k]
  {
    if s[0] == c then 0 else FirstIndex(s[1..], c) + 1
  }

  /** `''.join(s.split(sep, 1)[1:])`: everything after the first `sep`, or the
      empty string when `sep` does not occur. */
  function AfterFirst(s: string, sep: char): (r: string)
    ensures sep !in s ==> r == []
    ensures sep in s ==>
      exists k :: 0 <= k < |s| && s == s[..k] + [sep] + r && sep !in s[..k]
  {
    if sep in s then
      var k := FirstIndex(s, sep);
      s[k + 1..]
    else
      []
  }

  lemma FirstIndexAt(u: string, v: string, c: char)
    requires c !in u && v != [] && v[0] == c
    ensures c in u + v && FirstIndex(u + v, c) == |u|
  {
    var s := u + v;
    assert s[|u|] == c;
  }

  /** A piece without a newline that is followed by a newline is fixed by the
      string it starts: two such splits of one string are the same split. */
  lemma NewlineSplitUnique(u1: string, v1: string, u2: string, v2: string)
    requires '\n' !in u1 && '\n' !in u2
    requires v1 != [] && v1[0] == '\n' && v2 != [] && v2[0] == '\n'
    requires u1 + v1 == u2 + v2
    ensures u1 == u2 && v1 == v2
  {
    FirstIndexAt(u1, v1, '\n');
    FirstIndexAt(u2, v2, '\n');
    assert u1 == (u1 + v1)[..|u1|] && u2 == (u2 + v2)[..|u2|];
    assert v1 == (u1 + v1)[|u1|..] && v2 == (u2 + v2)[|u2|..];
  }

  /** `"\n".join(lines)`. */
  function JoinLines(lines: seq<string>): string
  {
    if lines == [] then ""
    else if |lines| == 1 then lines[0]
    else lines[0] + "\n" + JoinLines(lines[1..])
  }

  /** `s.split('\n')`: at least one piece, no piece holds a newline, and the
      pieces joined by newlines give back `s`. */
  function Lines(s: string): (r: seq<string>)
    ensures |r| >= 1
    ensures forall i :: 0 <= i < |r| ==> '\n' !in r[i]
    ensures JoinLines(r) == s
    decreases |s|
  {
    if '\n' in s then
      var k := FirstIndex(s, '\n');
      var rest := Lines(s[k + 1..]);
      assert s == s[..k] + "\n" + s[k + 1..];
      [s[..k]] + rest
    else
      [s]
  }

  /** Splitting a newline-join gives back the pieces, when no piece holds a newline. */
  lemma {:induction false} LinesOfJoin(lines: seq<string>)
    requires |lines| >= 1
    requires forall i :: 0 <= i < |lines| ==> '\n' !in lines[i]
    ensures Lines(JoinLines(lines)) == lines
  {
    if |lines| > 1 {
      var head, rest := lines[0], lines[1..];
      var tail := JoinLines(rest);
      var s := JoinLines(lines);
      assert s == head + ("\n" + tail);
      FirstIndexAt(head, "\n" + tail, '\n');
      assert s[..|head|] == head;
      assert s[|head| + 1..] == tail;
      assert Lines(s) == [head] + Lines(tail);
      LinesOfJoin(rest);
      assert lines == [head] + rest;
    }
  }

}
