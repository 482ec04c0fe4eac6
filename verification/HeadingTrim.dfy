/** Cutting a text where numbered headings start to repeat, and the sanitizer as a whole. */
module HeadingTrim {
  import opened Wrappers
  import opened Text
  import opened Sanitizer

  datatype Heading = Heading(at: nat, title: string)

  function Headings(env: Env, lines: seq<string>): seq<Heading> {
    if lines == [] then []
    else
      var n := |lines| - 1;
      var title := env.heading(lines[n]);
      Headings(env, lines[..n]) + if title.Some? then [Heading(n, title.value)] else []
  }

  function Titles(window: seq<Heading>): set<string> {
    set h | h in window :: h.title
  }

  /** Few titles on few lines. */
  predicate Repetitive(window: seq<Heading>) {
    |window| > 0 && |Titles(window)| <= MAX_TITLES && window[|window| - 1].at - window[0].at + 1 <= WINDOW * 4
  }

  predicate RepetitiveAt(headings: seq<Heading>, start: nat) {
    start + WINDOW <= |headings| && Repetitive(headings[start..start + WINDOW])
  }

  /** The first repetitive window from `start` on, or the number of headings. */
  function FirstRepetitive(headings: seq<Heading>, start: nat): (f: nat)
    ensures f < |headings| ==> RepetitiveAt(headings, f)
    ensures forall s | start <= s < f :: !RepetitiveAt(headings, s)
    ensures start <= |headings| ==> start <= f <= |headings|
    decreases |headings| - start
  {
    if start >= |headings| then |headings|
    else if RepetitiveAt(headings, start) then start
    else FirstRepetitive(headings, start + 1)
  }

  function Trim(env: Env, text: string): string {
    var lines := SplitLines(text);
    var headings := Headings(env, lines);
    var f := FirstRepetitive(headings, 0);
    if f < |headings| && headings[f].at <= |lines| then RStrip(JoinLines(lines[..headings[f].at])) else text
  }

  lemma {:induction false} HeadingsInside(env: Env, lines: seq<string>)
    ensures forall i | 0 <= i < |Headings(env, lines)| :: Headings(env, lines)[i].at < |lines|
  {
    if lines != [] {
      HeadingsInside(env, lines[..|lines| - 1]);
    }
  }

  lemma HeadingsSnoc(env: Env, lines: seq<string>, line: string)
    ensures Headings(env, lines + [line]) ==
            Headings(env, lines) + if env.heading(line).Some? then [Heading(|lines|, env.heading(line).value)] else []
  {
    assert (lines + [line])[..|lines|] == lines;
  }

  /** `trim_repetitive_numbered_headings`. */
  method TrimRepetitiveNumberedHeadings(env: Env, text: string) returns (r: string)
    ensures r == Trim(env, text)
  {
    hide SplitLines, Titles, JoinLines, RStrip;
    var lines := SplitLines(text);
    var headings: seq<Heading> := [];
    for idx := 0 to |lines|
      invariant headings == Headings(env, lines[..idx])
    {
      HeadingsSnoc(env, lines[..idx], lines[idx]);
      assert lines[..idx + 1] == lines[..idx] + [lines[idx]];
      var title := env.heading(lines[idx]);
      if title.Some? {
        headings := headings + [Heading(idx, title.value)];
      }
    }
    assert lines[..|lines|] == lines;
    HeadingsInside(env, lines);
    var start := 0;
    while start + WINDOW <= |headings|
      invariant 0 <= start <= |headings|
      invariant FirstRepetitive(headings, 0) == FirstRepetitive(headings, start)
    {
      var window := headings[start..start + WINDOW];
      var uniqueTitles := Titles(window);
      var span := window[WINDOW - 1].at - window[0].at + 1;
      if |uniqueTitles| <= MAX_TITLES && span <= WINDOW * 4 {
        var trimAt := window[0].at;
        return RStrip(JoinLines(lines[..trimAt]));
      }
      start := start + 1;
    }
    NoWindowLeft(headings, start);
    return text;
  }

  lemma {:induction false} NoWindowLeft(headings: seq<Heading>, start: nat)
    requires start <= |headings| < start + WINDOW
    ensures FirstRepetitive(headings, start) == |headings|
    decreases |headings| - start
  {
    if start < |headings| {
      NoWindowLeft(headings, start + 1);
    }
  }

  // ---------- trimming twice ----------

  /** The headings above the f-th are those of the lines above it. */
  lemma {:induction false} HeadingsAbove(env: Env, lines: seq<string>, f: nat)
    requires f < |Headings(env, lines)|
    ensures Headings(env, lines)[f].at < |lines|
    ensures Headings(env, lines[..Headings(env, lines)[f].at]) == Headings(env, lines)[..f]
  {
    var n := |lines| - 1;
    var before := Headings(env, lines[..n]);
    if f < |before| {
      HeadingsAbove(env, lines[..n], f);
      assert lines[..n][..before[f].at] == lines[..before[f].at];
    } else {
      assert Headings(env, lines)[..f] == before;
    }
  }

  /** The lines left after `rstrip`: blank lines at the end go, the last is stripped. */
  function Tidied(lines: seq<string>): seq<string> {
    if lines == [] then []
    else
      var n := |lines| - 1;
      if IsBlank(lines[n]) then Tidied(lines[..n]) else lines[..n] + [RStrip(lines[n])]
  }

  lemma RStripBlank(s: string)
    requires IsBlank(s)
    ensures RStrip(s) == ""
  {
    RStripAppend("", s);
    assert "" + s == s;
    assert RStrip("") == "";
  }

  lemma JoinSnoc(lines: seq<string>, line: string)
    requires lines != []
    ensures JoinLines(lines + [line]) == JoinLines(lines) + ("\n" + line)
  {
    JoinAppend(lines, [line], "\n");
    Assoc(JoinLines(lines), "\n", line);
  }

  lemma BreakThenBlank(line: string)
    ensures IsBlank("\n" + line) <==> IsBlank(line)
  {
    var s := "\n" + line;
    assert forall i | 0 <= i < |line| :: line[i] == s[i + 1];
    if IsBlank(s) {
      forall i | 0 <= i < |line|
        ensures IsSpace(line[i])
      {
        assert IsSpace(s[i + 1]);
      }
    }
  }

  lemma {:induction false} RStripJoin(lines: seq<string>)
    ensures RStrip(JoinLines(lines)) == JoinLines(Tidied(lines))
  {
    hide RStrip, IsBlank;
    if lines == [] {
      RStripBlank("") by { EmptyBlank(); }
    } else {
      var n := |lines| - 1;
      var init, last := lines[..n], lines[n];
      assert lines == init + [last];
      if n == 0 {
        if IsBlank(last) {
          RStripBlank(last);
        }
        assert init == [];
      } else {
        JoinSnoc(init, last);
        BreakThenBlank(last);
        RStripAppend(JoinLines(init), "\n" + last);
        if IsBlank(last) {
          RStripJoin(init);
        } else {
          RStripAppend("\n", last);
          JoinSnoc(init, RStrip(last));
        }
      }
    }
  }

  lemma EmptyBlank()
    ensures IsBlank("")
  {}

  lemma RStripLine(line: string)
    requires IsLine(line) && !IsBlank(line)
    ensures IsLine(RStrip(line)) && RStrip(line) != ""
  {
    RStripCut(line);
    var r := RStrip(line);
    assert r == line[..|r|];
  }

  lemma {:induction false} TidiedAreLines(lines: seq<string>)
    requires AreLines(lines)
    ensures AreLines(Tidied(lines))
    ensures Tidied(lines) != [] ==> Tidied(lines)[|Tidied(lines)| - 1] != ""
  {
    hide RStrip, IsBlank, IsLine;
    if lines != [] {
      var n := |lines| - 1;
      if IsBlank(lines[n]) {
        TidiedAreLines(lines[..n]);
      } else {
        RStripLine(lines[n]);
      }
    }
  }

  /** Tidying loses at most the last headings. */
  lemma {:induction false} TidiedHeadings(env: Env, lines: seq<string>)
    requires env.Valid()
    ensures Headings(env, Tidied(lines)) <= Headings(env, lines)
  {
    hide RStrip, IsBlank;
    if lines != [] {
      var n := |lines| - 1;
      if IsBlank(lines[n]) {
        TidiedHeadings(env, lines[..n]);
      } else {
        HeadingsSnoc(env, lines[..n], RStrip(lines[n]));
      }
    }
  }

  lemma NoneRepetitive(headings: seq<Heading>, f: nat, n: nat)
    requires f == FirstRepetitive(headings, 0) && n <= f <= |headings|
    ensures FirstRepetitive(headings[..n], 0) == n
  {
    hide Repetitive, FirstRepetitive;
    forall s: nat
      ensures !RepetitiveAt(headings[..n], s)
    {
      if s + WINDOW <= n {
        assert headings[..n][s..s + WINDOW] == headings[s..s + WINDOW];
        assert !RepetitiveAt(headings, s);
      }
    }
    hide RepetitiveAt;
  }

  /** Trimming a trimmed text changes nothing: no repetitive window is left. */
  lemma TrimTwice(env: Env, text: string)
    requires env.Valid()
    ensures Trim(env, Trim(env, text)) == Trim(env, text)
  {
    hide SplitLines, Titles, JoinLines, RStrip, IsLine, IsBlank, FirstRepetitive, Repetitive, Headings;
    var lines := SplitLines(text);
    var headings := Headings(env, lines);
    var f := FirstRepetitive(headings, 0);
    if f < |headings| && headings[f].at <= |lines| {
      var above := lines[..headings[f].at];
      HeadingsAbove(env, lines, f);
      SplitLinesAreLines(text);
      RStripJoin(above);
      TidiedAreLines(above);
      SplitJoin(Tidied(above));
      TidiedHeadings(env, above);
      var left := Headings(env, Tidied(above));
      assert left == headings[..|left|];
      NoneRepetitive(headings, f, |left|);
    }
  }

  /** A text that is cut changes. */
  lemma TrimShortens(env: Env, text: string)
    ensures var headings := Headings(env, SplitLines(text));
            FirstRepetitive(headings, 0) < |headings| ==> Trim(env, text) != text
  {
    hide SplitLines, JoinLines, RStrip, FirstRepetitive;
    var lines := SplitLines(text);
    var headings := Headings(env, lines);
    var f := FirstRepetitive(headings, 0);
    if f < |headings| {
      HeadingsAbove(env, lines, f);
      var above := lines[..headings[f].at];
      RStripJoin(above);
      SplitLinesAreLines(text);
      TidiedAreLines(above);
      SplitJoin(Tidied(above));
      TidiedShort(above);
      assert SplitLines(Trim(env, text)) == Tidied(above);
    }
  }

  ghost predicate AnyRepetitive(headings: seq<Heading>) {
    exists start: nat :: RepetitiveAt(headings, start)
  }

  /** A text is left alone exactly when no window of it is repetitive. */
  lemma TrimsExactlyRepetitive(env: Env, text: string)
    ensures Trim(env, text) == text <==> !AnyRepetitive(Headings(env, SplitLines(text)))
  {
    hide SplitLines, JoinLines, RStrip, Headings, AnyRepetitive, FirstRepetitive;
    TrimShortens(env, text);
    FirstMeansAny(Headings(env, SplitLines(text)));
  }

  /** The scan finds a window exactly if there is one. */
  lemma FirstMeansAny(headings: seq<Heading>)
    ensures FirstRepetitive(headings, 0) < |headings| <==> AnyRepetitive(headings)
    ensures FirstRepetitive(headings, 0) <= |headings|
  {
    var f := FirstRepetitive(headings, 0);
    if f < |headings| {
      assert RepetitiveAt(headings, f);
    }
    if start: nat :| RepetitiveAt(headings, start) {
      RepetitiveInside(headings);
      assert start < f ==> !RepetitiveAt(headings, start);
    }
    hide FirstRepetitive;
  }

  /** Otherwise the lines above the first repetitive window stay, but for white space at the
      end. */
  lemma TrimIsCut(env: Env, text: string, f: nat)
    requires var headings := Headings(env, SplitLines(text));
             RepetitiveAt(headings, f) && forall s: nat | s < f :: !RepetitiveAt(headings, s)
    ensures var headings := Headings(env, SplitLines(text));
            && f < |headings| && headings[f].at < |SplitLines(text)|
            && Trim(env, text) == RStrip(JoinLines(SplitLines(text)[..headings[f].at]))
  {
    hide SplitLines, JoinLines, RStrip, Headings, RepetitiveAt;
    var headings := Headings(env, SplitLines(text));
    RepetitiveInside(headings);
    FirstIs(headings, f);
    HeadingsAbove(env, SplitLines(text), f);
  }

  /** The numbered headings of a text, by line. */
  ghost predicate HeadingLines(env: Env, lines: seq<string>, at: seq<nat>) {
    && Positions(at, |lines|)
    && forall i: nat | i < |lines| :: i in at <==> env.heading(lines[i]).Some?
  }

  /** Eight headings in a row, from the k-th on, with at most three titles on at most 32 lines. */
  ghost predicate Repeats(env: Env, lines: seq<string>, at: seq<nat>, k: nat)
    requires HeadingLines(env, lines, at)
  {
    && k + 7 < |at| && at[k + 7] - at[k] + 1 <= 32
    && |set j: nat | k <= j < k + 8 && at[j] in at :: env.heading(lines[at[j]]).value| <= 3
  }

  lemma {:induction false} HeadingsAre(env: Env, lines: seq<string>) returns (at: seq<nat>)
    ensures HeadingLines(env, lines, at) && |Headings(env, lines)| == |at|
    ensures forall k | 0 <= k < |at| ::
              Headings(env, lines)[k] == Heading(at[k], env.heading(lines[at[k]]).value)
  {
    if lines == [] {
      return [];
    }
    var n: nat := |lines| - 1;
    var before := HeadingsAre(env, lines[..n]);
    at := before;
    AtSnoc(before, n);
    assert forall k | 0 <= k < |before| :: before[k] in before;
    if env.heading(lines[n]).Some? {
      at := before + [n];
    }
  }

  lemma RepeatsIs(env: Env, lines: seq<string>, at: seq<nat>, k: nat)
    requires HeadingLines(env, lines, at) && |Headings(env, lines)| == |at|
    requires forall k | 0 <= k < |at| ::
               at[k] in at && Headings(env, lines)[k] == Heading(at[k], env.heading(lines[at[k]]).value)
    ensures RepetitiveAt(Headings(env, lines), k) <==> Repeats(env, lines, at, k)
  {
    hide Headings;
    var headings := Headings(env, lines);
    if k + 8 <= |at| {
      var window := headings[k..k + 8];
      var titles := set j: nat | k <= j < k + 8 && at[j] in at :: env.heading(lines[at[j]]).value;
      forall t ensures t in titles <==> t in Titles(window) {
        if t in titles {
          var j: nat :| k <= j < k + 8 && t == env.heading(lines[at[j]]).value;
          assert window[j - k] == headings[j];
        }
        if t in Titles(window) {
          var i :| 0 <= i < 8 && window[i].title == t;
          assert window[i] == headings[k + i];
        }
      }
      assert titles == Titles(window);
    }
  }

  /** Trimming, said of the lines: a text without eight such headings stays, and otherwise the
      lines above the first of them stay, but for white space at the end. */
  lemma TrimIs(env: Env, text: string) returns (at: seq<nat>)
    ensures HeadingLines(env, SplitLines(text), at)
    ensures Trim(env, text) == text <==> forall k: nat :: !Repeats(env, SplitLines(text), at, k)
    ensures forall k: nat ::
              Repeats(env, SplitLines(text), at, k) && (forall j: nat | j < k :: !Repeats(env, SplitLines(text), at, j))
              ==> Trim(env, text) == RStrip(JoinLines(SplitLines(text)[..at[k]]))
  {
    hide SplitLines, Headings, RepetitiveAt, JoinLines, RStrip, HeadingLines, Repeats;
    var lines := SplitLines(text);
    at := HeadingsAre(env, lines);
    TrimsExactlyRepetitive(env, text);
    forall k: nat ensures RepetitiveAt(Headings(env, lines), k) <==> Repeats(env, lines, at, k) {
      RepeatsIs(env, lines, at, k);
    }
    forall k: nat | Repeats(env, lines, at, k) && forall j: nat | j < k :: !Repeats(env, lines, at, j)
      ensures Trim(env, text) == RStrip(JoinLines(lines[..at[k]]))
    {
      TrimIsCut(env, text, k);
    }
  }

  lemma FirstIs(headings: seq<Heading>, f: nat)
    requires f < |headings| && RepetitiveAt(headings, f) && forall s: nat | s < f :: !RepetitiveAt(headings, s)
    ensures FirstRepetitive(headings, 0) == f
  {
    hide RepetitiveAt;
    var g := FirstRepetitive(headings, 0);
    assert g < |headings| ==> RepetitiveAt(headings, g);
    hide FirstRepetitive;
  }

  lemma RepetitiveInside(headings: seq<Heading>)
    ensures forall start: nat | RepetitiveAt(headings, start) :: start < |headings|
  {}

  lemma {:induction false} TidiedShort(lines: seq<string>)
    ensures |Tidied(lines)| <= |lines|
  {
    hide RStrip, IsBlank;
    if lines != [] {
      TidiedShort(lines[..|lines| - 1]);
    }
  }

  // ---------- the sanitizer ----------

  /** Three line breaks in a row. */
  predicate Triple(s: string, i: nat) {
    i + 2 < |s| && s[i] == '\n' && s[i + 1] == '\n' && s[i + 2] == '\n'
  }

  ghost predicate NoTriple(s: string) {
    forall i: nat :: !Triple(s, i)
  }

  /** `str.replace`. */
  function Replace(s: string, pattern: string, into: string): string
    requires pattern != ""
    decreases |s|
  {
    if |s| < |pattern| then s
    else if s[..|pattern|] == pattern then into + Replace(s[|pattern|..], pattern, into)
    else [s[0]] + Replace(s[1..], pattern, into)
  }

  lemma PatternIsTriple(s: string, pattern: string)
    requires 3 <= |pattern| <= |s| && pattern[0] == pattern[1] == pattern[2] == '\n'
    ensures s[..|pattern|] == pattern ==> Triple(s, 0)
  {
    assert s[..|pattern|][0] == s[0] && s[..|pattern|][1] == s[1] && s[..|pattern|][2] == s[2];
  }

  lemma {:induction false} NothingToReplace(s: string, pattern: string, into: string)
    requires |pattern| >= 3 && pattern[0] == pattern[1] == pattern[2] == '\n' && NoTriple(s)
    ensures Replace(s, pattern, into) == s
    decreases |s|
  {
    if |s| >= |pattern| {
      PatternIsTriple(s, pattern);
      assert !Triple(s, 0);
      forall i: nat
        ensures !Triple(s[1..], i)
      {
        assert !Triple(s, i + 1);
      }
      NothingToReplace(s[1..], pattern, into);
    }
  }

  lemma JoinStart(lines: seq<string>)
    requires AreLines(lines)
    ensures JoinLines(lines) != "" && JoinLines(lines)[0] == '\n' ==> |lines| >= 2 && lines[0] == ""
  {
    if |lines| >= 1 && lines[0] != "" {
      assert IsLine(lines[0]);
      assert JoinLines(lines)[0] == lines[0][0];
    }
  }

  /** Joined lines without adjacent blank ones have no three breaks in a row. */
  lemma {:induction false} JoinNoTriple(lines: seq<string>)
    requires AreLines(lines) && NoAdjacentBlank(lines)
    ensures NoTriple(JoinLines(lines))
  {
    if |lines| == 1 {
      assert IsLine(lines[0]);
    } else if |lines| > 1 {
      var l, rest := lines[0], lines[1..];
      assert AreLines(rest);
      forall i: nat
        ensures !BothBlank(rest, i)
      {
        assert !BothBlank(lines, i + 1);
      }
      JoinNoTriple(rest);
      var t := JoinLines(rest);
      var s := l + "\n" + t;
      assert JoinLines(lines) == s;
      forall i: nat
        ensures !Triple(s, i)
      {
        TripleCases(lines, l, rest, t, i);
      }
    }
  }

  lemma TripleCases(lines: seq<string>, l: string, rest: seq<string>, t: string, i: nat)
    requires |lines| > 1 && l == lines[0] && rest == lines[1..] && t == JoinLines(rest)
    requires AreLines(lines) && NoAdjacentBlank(lines) && NoTriple(t)
    ensures !Triple(l + "\n" + t, i)
  {
    var s := l + "\n" + t;
    assert IsLine(l);
    if i < |l| {
      assert s[i] == l[i];
    } else if i > |l| {
      assert !Triple(t, i - |l| - 1);
    } else if Triple(s, i) {
      assert t[0] == s[i + 1] && t[1] == s[i + 2];
      assert AreLines(rest);
      JoinStart(rest);
      assert t == rest[0] + "\n" + JoinLines(rest[1..]);
      assert JoinLines(rest[1..])[0] == t[1];
      JoinStart(rest[1..]);
      assert rest[1] == "";
      assert BothBlank(lines, 1);
      assert false;
    }
  }

  function Sanitized(env: Env, text: string): string {
    var units := CollapsedUnits(text, MAX_UNIT_REPEATS);
    var lines := JoinLines(CollapseLines(SplitLines(units), MAX_LINE_REPEATS));
    Trim(env, lines)
  }

  lemma NoAdjacentPrefix(lines: seq<string>, n: nat)
    requires NoAdjacentBlank(lines) && n <= |lines|
    ensures NoAdjacentBlank(lines[..n])
  {
    hide IsBlank;
    forall i: nat
      ensures !BothBlank(lines[..n], i)
    {
      assert !BothBlank(lines, i);
    }
  }

  lemma NoTriplePrefix(s: string, n: nat)
    requires NoTriple(s) && n <= |s|
    ensures NoTriple(s[..n])
  {
    forall i: nat
      ensures !Triple(s[..n], i)
    {
      assert !Triple(s, i);
    }
  }

  /** Sanitized texts have no three breaks in a row. */
  lemma SanitizedNoTriple(env: Env, text: string)
    ensures NoTriple(Sanitized(env, text))
  {
    hide CollapsedUnits, SplitLines, JoinLines, RStrip, NoTriple, NoAdjacentBlank, AreLines, CollapseLines, Headings,
        FirstRepetitive;
    var units := CollapsedUnits(text, MAX_UNIT_REPEATS);
    var kept := CollapseLines(SplitLines(units), MAX_LINE_REPEATS);
    SplitLinesAreLines(units);
    CollapsedAreLines(SplitLines(units), MAX_LINE_REPEATS);
    CollapseLinesIs(SplitLines(units), MAX_LINE_REPEATS);
    JoinNoTriple(kept);
    SplitJoin(kept);
    var lines := SplitLines(JoinLines(kept));
    var n := |lines|;
    assert lines == kept[..n];
    var f := FirstRepetitive(Headings(env, lines), 0);
    if f < |Headings(env, lines)| && Headings(env, lines)[f].at <= |lines| {
      var at := Headings(env, lines)[f].at;
      assert lines[..at] == kept[..at];
      NoAdjacentPrefix(kept, at);
      LinesPrefix(kept, at);
      JoinNoTriple(kept[..at]);
      RStripCut(JoinLines(kept[..at]));
      RStripPrefix(JoinLines(kept[..at]));
    }
  }

  lemma LinesPrefix(lines: seq<string>, n: nat)
    requires AreLines(lines) && n <= |lines|
    ensures AreLines(lines[..n])
  {}

  lemma RStripPrefix(s: string)
    requires NoTriple(s)
    ensures NoTriple(RStrip(s))
  {
    NoTriplePrefix(s, BackSpaces(s, |s|));
  }

  /** `sanitize_markdown_content`; the two replacements at the end find nothing to replace. */
  method SanitizeMarkdownContent(env: Env, text: string) returns (r: string)
    ensures r == Sanitized(env, text) == Trim(env, CollapsedLines(CollapsedUnits(text, 1), 2))
  {
    hide CollapsedUnits, SplitLines, JoinLines, CollapseLines, Trim, NoTriple;
    r := CollapseRepeatedUnits(text, MAX_UNIT_REPEATS);
    r := CollapseRepeatedLines(r, MAX_LINE_REPEATS);
    r := TrimRepetitiveNumberedHeadings(env, r);
    SanitizedNoTriple(env, text);
    NothingToReplace(r, "\n\n\n\n", "\n\n");
    NothingToReplace(r, "\n\n\n", "\n\n");
    r := Replace(Replace(r, "\n\n\n\n", "\n\n"), "\n\n\n", "\n\n");
  }

  /** `is_usable_incomplete_content`. */
  method IsUsableIncompleteContent(env: Env, text: string) returns (usable: bool)
    ensures usable <==> |Squeeze(text)| >= USABLE_LENGTH && Trim(env, text) == text
    ensures usable <==> |set i: nat | i < |text| && !IsSpace(text[i])| >= 20 && Trim(env, text) == text
  {
    InkCount(text);
    hide Squeeze, Trim, IsSpace;
    if |Squeeze(text)| < USABLE_LENGTH {
      return false;
    }
    var trimmed := TrimRepetitiveNumberedHeadings(env, text);
    usable := text == trimmed;
  }

  /** The sanitizer reaches a fixpoint of its last two steps: trimming and replacing change
      nothing any more, and usable means long enough. */
  lemma SanitizerFixpoint(env: Env, text: string)
    requires env.Valid()
    ensures var r := Sanitized(env, text);
            && Trim(env, r) == r
            && Replace(Replace(r, "\n\n\n\n", "\n\n"), "\n\n\n", "\n\n") == r
            && !AnyRepetitive(Headings(env, SplitLines(r)))
            && (|Squeeze(r)| >= USABLE_LENGTH && Trim(env, r) == r <==> |Squeeze(r)| >= USABLE_LENGTH)
  {
    hide CollapsedUnits, SplitLines, JoinLines, CollapseLines, Trim, NoTriple, AnyRepetitive, Headings, Squeeze, Replace;
    var r := Sanitized(env, text);
    var lines := JoinLines(CollapseLines(SplitLines(CollapsedUnits(text, MAX_UNIT_REPEATS)), MAX_LINE_REPEATS));
    SanitizedNoTriple(env, text);
    NothingToReplace(r, "\n\n\n\n", "\n\n");
    NothingToReplace(r, "\n\n\n", "\n\n");
    TrimTwice(env, lines);
    TrimsExactlyRepetitive(env, r);
  }
}
