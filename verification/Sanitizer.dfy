/** The text sanitizers of the OCR service: repeated units and lines, repeating headings. */
module Sanitizer {
  import opened Wrappers
  import opened Text

  const MAX_LINE_REPEATS: nat := 2
  const MAX_UNIT_REPEATS: nat := 1
  const UNIT_LENGTH: nat := 6
  const WINDOW: nat := 8
  const MAX_TITLES: nat := 3
  const USABLE_LENGTH: nat := 20

  /** The numbered-heading pattern is left abstract: `heading` gives the title of a line that
      is one, without white space.  A blank line is no heading, and dropping the white space at
      the end of a line leaves the title or makes the line too short to be one. */
  datatype Env = Env(heading: string -> Option<string>) {
    ghost predicate Valid() {
      && (forall l | IsBlank(l) :: heading(l).None?)
      && (forall l :: heading(RStrip(l)) == heading(l) || heading(RStrip(l)).None?)
    }
  }

  // ---------- repeated lines ----------

  function CountOf(kept: seq<string>, normalized: string): nat {
    if kept == [] then 0
    else CountOf(kept[..|kept| - 1], normalized) + if Squeeze(kept[|kept| - 1]) == normalized then 1 else 0
  }

  function KeepLine(kept: seq<string>, line: string, max: nat): seq<string> {
    if IsBlank(line) then
      if kept != [] && IsBlank(kept[|kept| - 1]) then kept else kept + [line]
    else if CountOf(kept, Squeeze(line)) >= max then kept
    else kept + [line]
  }

  function CollapseLines(lines: seq<string>, max: nat): seq<string> {
    if lines == [] then [] else KeepLine(CollapseLines(lines[..|lines| - 1], max), lines[|lines| - 1], max)
  }

  /** The text `collapse_repeated_lines` gives. */
  function CollapsedLines(text: string, max: nat): string {
    JoinLines(CollapseLines(SplitLines(text), max))
  }

  function CountIn(seen: map<string, nat>, s: string): nat {
    if s in seen then seen[s] else 0
  }

  lemma CountSnoc(kept: seq<string>, line: string, s: string)
    ensures CountOf(kept + [line], s) == CountOf(kept, s) + if Squeeze(line) == s then 1 else 0
  {
    assert (kept + [line])[..|kept|] == kept;
  }

  /** The dictionary counts the lines kept. */
  ghost predicate LinesCounted(seen: map<string, nat>, kept: seq<string>) {
    forall s :: s != "" ==> CountIn(seen, s) == CountOf(kept, s)
  }

  lemma LinesCountedAfter(seen: map<string, nat>, kept: seq<string>, line: string)
    requires LinesCounted(seen, kept)
    ensures var s := Squeeze(line);
            if s == "" then LinesCounted(seen, kept + [line])
            else CountIn(seen, s) == CountOf(kept, s) && LinesCounted(seen[s := CountIn(seen, s) + 1], kept + [line])
  {
    hide Squeeze, CountOf;
    CountAfter(kept, line);
  }

  lemma NoLinesCounted()
    ensures LinesCounted(map[], [])
  {}

  lemma CollapseLinesStep(lines: seq<string>, max: nat, n: nat)
    requires n < |lines|
    ensures CollapseLines(lines[..n + 1], max) == KeepLine(CollapseLines(lines[..n], max), lines[n], max)
  {
    assert lines[..n + 1][..n] == lines[..n];
    hide KeepLine;
  }

  /** `collapse_repeated_lines`. */
  method CollapseRepeatedLines(text: string, maxRepeats: nat := MAX_LINE_REPEATS) returns (r: string)
    ensures r == CollapsedLines(text, maxRepeats)
  {
    hide Squeeze, SplitLines, IsBlank, CollapseLines, CountOf, LinesCounted, JoinLines;
    var lines := SplitLines(text);
    var collapsed: seq<string> := [];
    var seen: map<string, nat> := map[];
    NoLinesCounted();
    NothingCollapsed(maxRepeats);
    for n := 0 to |lines|
      invariant collapsed == CollapseLines(lines[..n], maxRepeats)
      invariant LinesCounted(seen, collapsed)
    {
      var line := lines[n];
      CollapseLinesStep(lines, maxRepeats, n);
      var normalized := Squeeze(line);
      BlankSqueeze(line);
      LinesCountedAfter(seen, collapsed, line);
      if normalized == "" {
        if !(collapsed != [] && IsBlank(collapsed[|collapsed| - 1])) {
          collapsed := collapsed + [line];
        }
      } else {
        var repeatCount := if normalized in seen then seen[normalized] else 0;
        if repeatCount < maxRepeats {
          seen := seen[normalized := repeatCount + 1];
          collapsed := collapsed + [line];
        }
      }
    }
    assert lines[..|lines|] == lines;
    r := JoinLines(collapsed);
  }

  lemma BlankSqueeze(line: string)
    ensures Squeeze(line) == "" <==> IsBlank(line)
  {}

  lemma CountAfter(kept: seq<string>, line: string)
    ensures forall s :: CountOf(kept + [line], s) == CountOf(kept, s) + if Squeeze(line) == s then 1 else 0
  {
    forall s
      ensures CountOf(kept + [line], s) == CountOf(kept, s) + if Squeeze(line) == s then 1 else 0
    {
      CountSnoc(kept, line, s);
    }
  }

  predicate Subsequence(a: seq<string>, b: seq<string>) {
    if a == [] then true
    else if b == [] then false
    else if a[|a| - 1] == b[|b| - 1] && Subsequence(a[..|a| - 1], b[..|b| - 1]) then true
    else Subsequence(a, b[..|b| - 1])
  }

  ghost predicate BothBlank(lines: seq<string>, i: nat) {
    i + 1 < |lines| && IsBlank(lines[i]) && IsBlank(lines[i + 1])
  }

  ghost predicate NoAdjacentBlank(lines: seq<string>) {
    forall i: nat :: !BothBlank(lines, i)
  }

  /** What is kept is a subsequence without adjacent blank lines, no other line (white space
      aside) more than `max` times. */
  lemma {:induction false} CollapseLinesIs(lines: seq<string>, max: nat)
    ensures var kept := CollapseLines(lines, max);
            && Subsequence(kept, lines) && NoAdjacentBlank(kept)
            && forall s :: s != "" ==> CountOf(kept, s) <= max
  {
    hide Squeeze, IsBlank;
    if lines != [] {
      var n := |lines| - 1;
      var before, line := CollapseLines(lines[..n], max), lines[n];
      CollapseLinesIs(lines[..n], max);
      CountAfter(before, line);
      BlankSqueeze(line);
      var kept := KeepLine(before, line, max);
      if kept != before {
        assert kept[..|before|] == before;
        forall i: nat
          ensures !BothBlank(kept, i)
        {
          assert !BothBlank(before, i);
        }
      }
    }
  }

  function Least(a: nat, b: nat): nat {
    if a < b then a else b
  }

  /** Nothing is dropped without need: of every line (white space aside) `max` copies are kept,
      or all there are. */
  lemma {:induction false} CollapseLinesKeeps(lines: seq<string>, max: nat, s: string)
    requires s != ""
    ensures CountOf(CollapseLines(lines, max), s) == Least(CountOf(lines, s), max)
  {
    hide Squeeze, IsBlank;
    if lines != [] {
      var n := |lines| - 1;
      var before, line := CollapseLines(lines[..n], max), lines[n];
      CollapseLinesKeeps(lines[..n], max, s);
      CountSnoc(before, line, s);
      BlankSqueeze(line);
    }
  }

  // ---------- which lines are kept, said of the lines themselves ----------

  /** Read at these positions, the lines are `kept`. */
  predicate ReadAt(lines: seq<string>, at: seq<nat>, kept: seq<string>) {
    && Positions(at, |lines|) && |kept| == |at|
    && forall k | 0 <= k < |at| :: kept[k] == lines[at[k]]
  }

  /** Line i stays: a blank line unless the line kept last before it is blank, any other unless
      `max` kept lines before it have the same characters in the same order, white space aside. */
  ghost predicate Stays(lines: seq<string>, max: nat, at: seq<nat>, i: nat)
    requires i < |lines| && Positions(at, |lines|)
  {
    if IsBlank(lines[i]) then !BlankBefore(lines, at, i)
    else |set j: nat | j in at && j < i && SameInk(lines[j], lines[i])| < max
  }

  ghost predicate BlankBefore(lines: seq<string>, at: seq<nat>, i: nat)
    requires Positions(at, |lines|)
  {
    exists j: nat :: j in at && j < i && IsBlank(lines[j]) && forall k | j < k < i :: k !in at
  }

  lemma AtSnoc(at: seq<nat>, n: nat)
    requires Positions(at, n)
    ensures n !in at && Positions(at, n + 1) && Positions(at + [n], n + 1)
    ensures forall i: nat | i <= n :: i in at + [n] <==> i == n || i in at
  {
    assert (at + [n])[|at|] == n;
  }

  lemma CopiesSnoc(lines: seq<string>, init: seq<nat>, last: nat, line: string, n: nat)
    requires Positions(init, last) && last < n && last < |lines|
    ensures (set j: nat | j in init + [last] && j < n && SameInk(lines[j], line)) ==
            (set j: nat | j in init && j < last && SameInk(lines[j], line)) +
            if SameInk(lines[last], line) then {last} else {}
  {
    hide SameInk;
    AtSnoc(init, last);
    forall j: nat | j in init ensures j < last && j in init + [last] {
      assert (init + [last])[|init|] == last;
    }
  }

  lemma ReadInit(lines: seq<string>, at: seq<nat>, kept: seq<string>, n: nat)
    requires ReadAt(lines, at, kept) && Positions(at, n) && at != []
    ensures var m := |at| - 1;
            && Positions(at[..m], at[m]) && at[m] < n && at[m] < |lines| && kept[m] == lines[at[m]]
            && ReadAt(lines, at[..m], kept[..m]) && at == at[..m] + [at[m]]
  {}

  lemma {:induction false} CountIsCopies(lines: seq<string>, at: seq<nat>, kept: seq<string>, line: string, n: nat)
    requires ReadAt(lines, at, kept) && Positions(at, n)
    ensures CountOf(kept, Squeeze(line)) == |set j: nat | j in at && j < n && SameInk(lines[j], line)|
  {
    hide Squeeze, SameInk, Ascending;
    if at != [] {
      ReadInit(lines, at, kept, n);
      var m := |at| - 1;
      CountIsCopies(lines, at[..m], kept[..m], line, at[m]);
      SameInkIs(lines[at[m]], line);
      CopiesSnoc(lines, at[..m], at[m], line, n);
    }
  }

  lemma LastIsGreatest(at: seq<nat>)
    requires Ascending(at) && at != []
    ensures at[|at| - 1] in at && forall k | k in at :: k <= at[|at| - 1]
  {
    assert forall i | 0 <= i < |at| :: at[i] <= at[|at| - 1];
  }

  lemma BlankBeforeIs(lines: seq<string>, at: seq<nat>, kept: seq<string>, n: nat)
    requires n < |lines| && ReadAt(lines, at, kept) && Positions(at, n)
    ensures BlankBefore(lines, at, n) <==> kept != [] && IsBlank(kept[|kept| - 1])
  {
    hide IsBlank;
    if at != [] {
      var last := at[|at| - 1];
      LastIsGreatest(at);
      hide Ascending;
      if j: nat :| j in at && j < n && IsBlank(lines[j]) && forall k | j < k < n :: k !in at {
        assert j == last;
      }
      if IsBlank(lines[last]) {
        assert forall k | last < k < n :: k !in at;
      }
    }
  }

  lemma StaysOrNot(lines: seq<string>, max: nat, at: seq<nat>, kept: seq<string>, n: nat)
    requires n < |lines| && ReadAt(lines, at, kept) && Positions(at, n)
    ensures KeepLine(kept, lines[n], max) == if Stays(lines, max, at, n) then kept + [lines[n]] else kept
  {
    hide Squeeze, SameInk, IsBlank, CountOf, BlankBefore;
    CountIsCopies(lines, at, kept, lines[n], n);
    BlankBeforeIs(lines, at, kept, n);
  }

  /** Another position at the end changes nothing before it. */
  lemma StaysBefore(lines: seq<string>, max: nat, at: seq<nat>, n: nat, i: nat)
    requires i <= n < |lines| && Positions(at, n)
    ensures Stays(lines, max, at + [n], i) <==> Stays(lines, max, at, i)
  {
    hide SameInk, IsBlank;
    var more := at + [n];
    assert forall j: nat | j < i :: j in more <==> j in at;
    assert (set j: nat | j in more && j < i && SameInk(lines[j], lines[i]))
        == (set j: nat | j in at && j < i && SameInk(lines[j], lines[i]));
  }

  /** The positions that stay among the first n lines. */
  ghost predicate AllStay(lines: seq<string>, max: nat, at: seq<nat>, n: nat)
    requires n <= |lines|
  {
    Positions(at, |lines|) && forall i: nat | i < n :: i in at <==> Stays(lines, max, at, i)
  }

  lemma AllStaySnoc(lines: seq<string>, max: nat, before: seq<nat>, n: nat)
    requires n < |lines| && Positions(before, n) && AllStay(lines, max, before, n)
    ensures AllStay(lines, max, if Stays(lines, max, before, n) then before + [n] else before, n + 1)
  {
    hide Stays;
    AtSnoc(before, n);
    if Stays(lines, max, before, n) {
      forall i: nat | i <= n ensures i in before + [n] <==> Stays(lines, max, before + [n], i) {
        StaysBefore(lines, max, before, n, i);
      }
    }
  }

  lemma ReadSnoc(lines: seq<string>, before: seq<nat>, kept: seq<string>, n: nat)
    requires n < |lines| && Positions(before, n) && ReadAt(lines, before, kept)
    ensures ReadAt(lines, before + [n], kept + [lines[n]])
  {
    AtSnoc(before, n);
  }

  lemma KeepsSnoc(lines: seq<string>, max: nat, before: seq<nat>, kept: seq<string>, n: nat)
    requires n < |lines| && Positions(before, n) && ReadAt(lines, before, kept) && AllStay(lines, max, before, n)
    ensures var at := if Stays(lines, max, before, n) then before + [n] else before;
            Positions(at, n + 1) && ReadAt(lines, at, KeepLine(kept, lines[n], max)) && AllStay(lines, max, at, n + 1)
  {
    StaysOrNot(lines, max, before, kept, n);
    AllStaySnoc(lines, max, before, n);
    AtSnoc(before, n);
    ReadSnoc(lines, before, kept, n);
    hide Stays, KeepLine, AllStay, ReadAt, Ascending;
  }

  ghost predicate LinesKept(lines: seq<string>, max: nat, at: seq<nat>, n: nat)
    requires n <= |lines|
  {
    Positions(at, n) && ReadAt(lines, at, CollapseLines(lines[..n], max)) && AllStay(lines, max, at, n)
  }

  lemma LinesKeptStep(lines: seq<string>, max: nat, before: seq<nat>, n: nat) returns (at: seq<nat>)
    requires n < |lines| && LinesKept(lines, max, before, n)
    ensures LinesKept(lines, max, at, n + 1)
  {
    assert lines[..n + 1][..n] == lines[..n];
    hide KeepLine, Stays, AllStay;
    KeepsSnoc(lines, max, before, CollapseLines(lines[..n], max), n);
    at := if Stays(lines, max, before, n) then before + [n] else before;
  }

  lemma {:induction false} KeepsExactlyTo(lines: seq<string>, max: nat, n: nat) returns (at: seq<nat>)
    requires n <= |lines|
    ensures LinesKept(lines, max, at, n)
  {
    if n == 0 {
      return [];
    }
    hide LinesKept;
    at := KeepsExactlyTo(lines, max, n - 1);
    at := LinesKeptStep(lines, max, at, n - 1);
  }

  /** The lines kept are, in order, exactly those that stay. */
  lemma KeepsExactly(lines: seq<string>, max: nat) returns (at: seq<nat>)
    ensures Positions(at, |lines|) && |CollapseLines(lines, max)| == |at|
    ensures forall k | 0 <= k < |at| :: CollapseLines(lines, max)[k] == lines[at[k]]
    ensures forall i: nat | i < |lines| :: i in at <==> Stays(lines, max, at, i)
  {
    hide Stays, CollapseLines;
    at := KeepsExactlyTo(lines, max, |lines|);
    assert lines[..|lines|] == lines;
  }

  /** Collapsing collapsed lines changes nothing. */
  lemma {:induction false} CollapseLinesTwice(lines: seq<string>, max: nat)
    ensures CollapseLines(CollapseLines(lines, max), max) == CollapseLines(lines, max)
  {
    hide Squeeze, IsBlank;
    if lines != [] {
      var n := |lines| - 1;
      CollapseLinesTwice(lines[..n], max);
      var before := CollapseLines(lines[..n], max);
      var kept := KeepLine(before, lines[n], max);
      if kept != before {
        assert kept[..|before|] == before;
      }
    }
  }

  lemma {:induction false} CollapsedAreLines(lines: seq<string>, max: nat)
    requires AreLines(lines)
    ensures AreLines(CollapseLines(lines, max))
  {
    hide Squeeze, IsBlank, IsLine;
    if lines != [] {
      CollapsedAreLines(lines[..|lines| - 1], max);
    }
  }

  // ---------- a second pass over the text ----------

  /** Not blank, and fewer than `max` lines before it read the same, white space aside. */
  ghost predicate Content(lines: seq<string>, max: nat, i: nat) {
    i < |lines| && !IsBlank(lines[i]) && CountOf(lines[..i], Squeeze(lines[i])) < max
  }

  /** Line p is the last one of content, and no line after it is blank. */
  ghost predicate EndsAt(lines: seq<string>, max: nat, p: nat) {
    && Content(lines, max, p)
    && forall i: nat | p < i < |lines| :: !Content(lines, max, i) && !IsBlank(lines[i])
  }

  /** Line p is the last one of content, and k, the first blank line after it, is empty. */
  ghost predicate TrailsOff(lines: seq<string>, max: nat, p: nat, k: nat) {
    && p < k < |lines| && lines[k] == "" && EndsAt(lines[..k], max, p)
    && forall i: nat | k <= i < |lines| :: !Content(lines, max, i)
  }

  /** The first blank line after the last line of content is empty. */
  ghost predicate TrailingEmpty(lines: seq<string>, max: nat) {
    exists p: nat, k: nat :: TrailsOff(lines, max, p, k)
  }

  lemma ContentBefore(lines: seq<string>, line: string, max: nat, i: nat)
    requires i < |lines|
    ensures Content(lines + [line], max, i) <==> Content(lines, max, i)
  {
    assert (lines + [line])[..i] == lines[..i];
    hide IsBlank, Squeeze;
  }

  lemma ContentLast(lines: seq<string>, line: string, max: nat)
    ensures Content(lines + [line], max, |lines|) <==> !IsBlank(line) && CountOf(lines, Squeeze(line)) < max
  {
    assert (lines + [line])[..|lines|] == lines;
    hide IsBlank, Squeeze;
  }

  lemma EndsAtSnoc(lines: seq<string>, line: string, max: nat, p: nat)
    ensures EndsAt(lines + [line], max, p) <==>
            if Content(lines + [line], max, |lines|) then p == |lines| else EndsAt(lines, max, p) && !IsBlank(line)
  {
    hide Content, IsBlank;
    var longer := lines + [line];
    forall i: nat | i < |lines|
      ensures Content(longer, max, i) <==> Content(lines, max, i)
    {
      ContentBefore(lines, line, max, i);
    }
    ContentBound(lines, max, p);
    ContentBound(longer, max, p);
    if EndsAt(longer, max, p) && p < |lines| {
      assert !Content(longer, max, |lines|) && !IsBlank(longer[|lines|]);
      forall i: nat | p < i < |lines|
        ensures !Content(lines, max, i) && !IsBlank(lines[i])
      {
        assert longer[i] == lines[i];
      }
    }
  }

  lemma ContentBound(lines: seq<string>, max: nat, i: nat)
    ensures Content(lines, max, i) ==> i < |lines| && !IsBlank(lines[i])
  {}

  lemma TrailsOffSnoc(lines: seq<string>, line: string, max: nat, p: nat, k: nat)
    ensures TrailsOff(lines + [line], max, p, k) <==>
              && !Content(lines + [line], max, |lines|)
              && (TrailsOff(lines, max, p, k) || (k == |lines| && line == "" && EndsAt(lines, max, p)))
  {
    hide Content, EndsAt;
    var longer := lines + [line];
    forall i: nat | i < |lines|
      ensures Content(longer, max, i) <==> Content(lines, max, i)
    {
      ContentBefore(lines, line, max, i);
    }
    if k <= |lines| {
      assert longer[..k] == lines[..k];
    }
    if k == |lines| {
      assert lines[..k] == lines;
      EndsAtBound(lines, max, p);
    }
  }

  lemma EndsAtBound(lines: seq<string>, max: nat, p: nat)
    ensures EndsAt(lines, max, p) ==> p < |lines|
  {}

  /** The last line kept: content, or the first blank line after it. */
  ghost predicate LastKept(lines: seq<string>, max: nat) {
    var once := CollapseLines(lines, max);
    && ((once != [] && !IsBlank(once[|once| - 1])) <==> exists p: nat :: EndsAt(lines, max, p))
    && ((|once| >= 2 && once[|once| - 1] == "") <==> TrailingEmpty(lines, max))
  }

  lemma {:induction false} LastKeptIs(lines: seq<string>, max: nat)
    ensures LastKept(lines, max)
  {
    hide Squeeze, IsBlank, EndsAt, TrailsOff;
    if lines == [] {
      NothingEnds(max);
    } else {
      var n := |lines| - 1;
      LastKeptIs(lines[..n], max);
      assert lines == lines[..n] + [lines[n]];
      LastKeptSnoc(lines[..n], lines[n], max);
    }
  }

  lemma NothingEnds(max: nat)
    ensures forall p: nat :: !EndsAt([], max, p)
    ensures forall p: nat, k: nat :: !TrailsOff([], max, p, k)
  {}

  /** Where the last line of content and the trailing blank line are, one line on. */
  lemma EndsSnoc(lines: seq<string>, line: string, max: nat)
    ensures var longer, c := lines + [line], !IsBlank(line) && CountOf(lines, Squeeze(line)) < max;
            && ((exists p: nat :: EndsAt(longer, max, p)) <==>
                  c || (!IsBlank(line) && exists p: nat :: EndsAt(lines, max, p)))
            && (TrailingEmpty(longer, max) <==>
                  !c && (TrailingEmpty(lines, max) || (line == "" && exists p: nat :: EndsAt(lines, max, p))))
  {
    hide Squeeze, IsBlank, EndsAt, TrailsOff, Content, CountOf;
    var longer := lines + [line];
    ContentLast(lines, line, max);
    var c := Content(longer, max, |lines|);
    forall p: nat
      ensures EndsAt(longer, max, p) <==> if c then p == |lines| else EndsAt(lines, max, p) && !IsBlank(line)
    {
      EndsAtSnoc(lines, line, max, p);
    }
    forall p: nat, k: nat
      ensures TrailsOff(longer, max, p, k) <==>
                !c && (TrailsOff(lines, max, p, k) || (k == |lines| && line == "" && EndsAt(lines, max, p)))
    {
      TrailsOffSnoc(lines, line, max, p, k);
    }
    if c {
      assert EndsAt(longer, max, |lines|);
    } else {
      if p: nat :| EndsAt(lines, max, p) {
        assert EndsAt(longer, max, p) <==> !IsBlank(line);
        assert line == "" ==> TrailsOff(longer, max, p, |lines|);
      }
      if p: nat, k: nat :| TrailsOff(lines, max, p, k) {
        assert TrailsOff(longer, max, p, k);
      }
    }
  }

  lemma LastKeptSnoc(lines: seq<string>, line: string, max: nat)
    requires LastKept(lines, max)
    ensures LastKept(lines + [line], max)
  {
    hide Squeeze, IsBlank, EndsAt, TrailsOff, Content, CountOf, TrailingEmpty, CollapseLines;
    EndsSnoc(lines, line, max);
    LastKeptCases(lines, line, max);
    EmptyIsBlank(line);
    var once := CollapseLines(lines, max);
    if once != [] {
      EmptyIsBlank(once[|once| - 1]);
    }
  }

  lemma EmptyIsBlank(line: string)
    ensures line == "" ==> IsBlank(line)
  {}

  lemma LastKeptCases(lines: seq<string>, line: string, max: nat)
    ensures CollapseLines(lines + [line], max) == KeepLine(CollapseLines(lines, max), line, max)
    ensures !IsBlank(line) ==>
              (CountOf(CollapseLines(lines, max), Squeeze(line)) >= max <==> CountOf(lines, Squeeze(line)) >= max)
  {
    assert (lines + [line])[..|lines|] == lines;
    BlankSqueeze(line);
    hide Squeeze, IsBlank, KeepLine;
    if Squeeze(line) != "" {
      CollapseLinesKeeps(lines, max, Squeeze(line));
    }
  }

  /** What is left of collapsed lines without the last one is collapsed. */
  lemma CollapsedInit(lines: seq<string>, max: nat)
    requires lines != [] && CollapseLines(lines, max) == lines
    ensures CollapseLines(lines[..|lines| - 1], max) == lines[..|lines| - 1]
  {
    hide Squeeze, IsBlank, CountOf;
    var n := |lines| - 1;
    CollapseShorter(lines[..n], max);
    assert KeepLine(CollapseLines(lines[..n], max), lines[n], max) == lines;
    assert CollapseLines(lines[..n], max) == lines[..n];
  }

  lemma {:induction false} CollapseShorter(lines: seq<string>, max: nat)
    ensures |CollapseLines(lines, max)| <= |lines|
  {
    hide Squeeze, IsBlank, CountOf;
    if lines != [] {
      CollapseShorter(lines[..|lines| - 1], max);
    }
  }

  /** Splitting the joined lines again and collapsing them loses one empty line at the end, if
      there is another line. */
  lemma CollapsedAgain(once: seq<string>, max: nat)
    requires AreLines(once) && CollapseLines(once, max) == once
    ensures var text, n := JoinLines(once), |once|;
            if n >= 2 && once[n - 1] == ""
            then CollapsedLines(text, max) == JoinLines(once[..n - 1]) && text == JoinLines(once[..n - 1]) + "\n"
            else CollapsedLines(text, max) == text
  {
    hide SplitLines, CollapseLines, JoinLines;
    SplitJoin(once);
    var n := |once|;
    if n >= 2 && once[n - 1] == "" {
      CollapsedInit(once, max);
      JoinEmptyLast(once);
    } else if n == 1 && once[0] == "" {
      NothingCollapsed(max);
      JustEmpty(once);
    }
  }

  lemma JoinEmptyLast(lines: seq<string>)
    requires |lines| >= 2 && lines[|lines| - 1] == ""
    ensures JoinLines(lines) == JoinLines(lines[..|lines| - 1]) + "\n"
  {
    hide Join;
    var init := lines[..|lines| - 1];
    JoinAppend(init, [""], "\n");
    JoinAppend([""], init, "\n");
    assert init + [""] == lines;
  }

  lemma JustEmpty(lines: seq<string>)
    requires lines == [""]
    ensures lines[..0] == [] && JoinLines(lines) == "" == JoinLines([])
  {}

  lemma NothingCollapsed(max: nat)
    ensures CollapseLines([], max) == []
  {}

  lemma NotTwoBlank(once: seq<string>, max: nat)
    requires NoAdjacentBlank(once) && |once| >= 2 && once[|once| - 1] == ""
    ensures once[|once| - 2] != ""
  {
    assert !BothBlank(once, |once| - 2);
  }

  /** When a second pass changes the text, and that a third never does: the second drops the
      newline that the first leaves at the end if the first blank line after the last line of
      content is empty. */
  lemma CollapseLinesAgain(text: string, max: nat)
    ensures var once := CollapsedLines(text, max);
            var twice := CollapsedLines(once, max);
            && (twice != once <==> TrailingEmpty(SplitLines(text), max))
            && (twice != once ==> once == twice + "\n")
            && CollapsedLines(twice, max) == twice
  {
    hide SplitLines, CollapseLines, TrailingEmpty, Squeeze, IsBlank, JoinLines, NoAdjacentBlank;
    var lines := SplitLines(text);
    SplitLinesAreLines(text);
    CollapsedAreLines(lines, max);
    CollapseLinesTwice(lines, max);
    CollapseLinesIs(lines, max);
    LastKeptIs(lines, max);
    var once := CollapseLines(lines, max);
    CollapsedAgain(once, max);
    if |once| >= 2 && once[|once| - 1] == "" {
      var init := once[..|once| - 1];
      CollapsedInit(once, max);
      NotTwoBlank(once, max);
      assert init[|init| - 1] != "";
      CollapsedAgain(init, max);
    }
  }

  /** An input on which the second pass differs from the first. */
  lemma SecondPassDiffers()
    ensures CollapsedLines("a\n\n", MAX_LINE_REPEATS) == "a\n"
    ensures CollapsedLines("a\n", MAX_LINE_REPEATS) == "a"
  {
    hide CollapseLines, JoinLines, SplitLines;
    assert SplitLines("a\n\n") == ["a", ""] && SplitLines("a\n") == ["a"] by {
      SplitLinesCons("a", "\n");
      SplitLinesCons("", "");
      SplitLinesCons("a", "");
      SplitLinesSingle("");
      assert "a" + "\n" + "\n" == "a\n\n" && "" + "\n" + "" == "\n" && "a" + "\n" + "" == "a\n";
    }
    KeptOfTwo();
    assert JoinLines(["a", ""]) == "a\n" && JoinLines(["a"]) == "a" by { JoinAppend(["a"], [""], "\n"); JoinOne(); }
  }

  lemma JoinOne()
    ensures JoinLines(["a"]) == "a" && JoinLines([""]) == "" && ["a"] + [""] == ["a", ""]
    ensures JoinLines(["a", ""]) == Join(["a"] + [""], "\n")
  {}

  lemma KeptOfTwo()
    ensures CollapseLines(["a"], MAX_LINE_REPEATS) == ["a"] && CollapseLines(["a", ""], MAX_LINE_REPEATS) == ["a", ""]
  {
    assert ["a", ""][..1] == ["a"] && ["a"][..0] == [];
    assert !IsBlank("a") by { assert !IsSpace("a"[0]); }
    hide Squeeze;
    assert CollapseLines([], MAX_LINE_REPEATS) == [];
    assert CountOf([], Squeeze("a")) == 0;
    assert KeepLine([], "a", MAX_LINE_REPEATS) == ["a"];
  }

  // ---------- repeated units ----------

  predicate IsSeparator(c: char) {
    c == '，' || c == ',' || c == '。' || c == '；' || c == ';' || c == '！' || c == '？' || c == '\n'
  }

  /** A unit and the separator behind it; the last unit has none. */
  datatype Unit = Unit(text: string, separator: string)

  function UnitEnd(s: string, i: nat): (n: nat)
    requires i <= |s|
    ensures i <= n <= |s|
    ensures forall k | i <= k < n :: !IsSeparator(s[k])
    ensures n < |s| ==> IsSeparator(s[n])
    decreases |s| - i
  {
    if i == |s| || IsSeparator(s[i]) then i else UnitEnd(s, i + 1)
  }

  /** `re.split` on the separators, unit by unit. */
  function Units(s: string): seq<Unit>
    decreases |s|
  {
    var n := UnitEnd(s, 0);
    if n == |s| then [Unit(s, "")] else [Unit(s[..n], [s[n]])] + Units(s[n + 1..])
  }

  function TextOf(units: seq<Unit>): string {
    if units == [] then "" else units[0].text + units[0].separator + TextOf(units[1..])
  }

  lemma {:induction false} TextSnoc(units: seq<Unit>, u: Unit)
    ensures TextOf(units + [u]) == TextOf(units) + (u.text + u.separator)
  {
    if units == [] {
      assert TextOf([u][1..]) == "";
      assert units + [u] == [u];
      assert "" + (u.text + u.separator) == u.text + u.separator + "";
    } else {
      TextSnoc(units[1..], u);
      assert (units + [u])[1..] == units[1..] + [u];
      Assoc(units[0].text + units[0].separator, TextOf(units[1..]), u.text + u.separator);
    }
  }

  /** Splitting loses nothing. */
  lemma {:induction false} UnitsRejoin(s: string)
    ensures TextOf(Units(s)) == s
    decreases |s|
  {
    var n := UnitEnd(s, 0);
    if n == |s| {
      assert Units(s)[1..] == [];
      assert s + "" + "" == s;
    } else {
      UnitsRejoin(s[n + 1..]);
      assert Units(s)[1..] == Units(s[n + 1..]);
      assert s == s[..n] + [s[n]] + s[n + 1..];
    }
  }

  function UnitCount(kept: seq<Unit>, normalized: string): nat {
    if kept == [] then 0
    else UnitCount(kept[..|kept| - 1], normalized) + if Squeeze(kept[|kept| - 1].text) == normalized then 1 else 0
  }

  function KeepUnit(kept: seq<Unit>, u: Unit, max: nat): seq<Unit> {
    var normalized := Squeeze(u.text);
    if |normalized| >= UNIT_LENGTH && UnitCount(kept, normalized) >= max then kept else kept + [u]
  }

  function CollapseUnits(units: seq<Unit>, max: nat): seq<Unit> {
    if units == [] then [] else KeepUnit(CollapseUnits(units[..|units| - 1], max), units[|units| - 1], max)
  }

  function CollapsedUnits(text: string, max: nat): string {
    TextOf(CollapseUnits(Units(text), max))
  }

  lemma UnitCountAfter(kept: seq<Unit>, u: Unit)
    ensures forall s :: UnitCount(kept + [u], s) == UnitCount(kept, s) + if Squeeze(u.text) == s then 1 else 0
  {
    assert (kept + [u])[..|kept|] == kept;
  }

  /** The dictionary counts the long units kept. */
  ghost predicate UnitsCounted(seen: map<string, nat>, kept: seq<Unit>) {
    forall s :: |s| >= UNIT_LENGTH ==> CountIn(seen, s) == UnitCount(kept, s)
  }

  lemma UnitsCountedAfter(seen: map<string, nat>, kept: seq<Unit>, u: Unit)
    requires UnitsCounted(seen, kept)
    ensures var s := Squeeze(u.text);
            if |s| >= UNIT_LENGTH
            then CountIn(seen, s) == UnitCount(kept, s) && UnitsCounted(seen[s := CountIn(seen, s) + 1], kept + [u])
            else UnitsCounted(seen, kept + [u])
  {
    hide Squeeze, UnitCount;
    UnitCountAfter(kept, u);
  }

  /** `collapse_repeated_units`. */
  method CollapseRepeatedUnits(text: string, maxRepeats: nat := MAX_UNIT_REPEATS) returns (r: string)
    ensures r == CollapsedUnits(text, maxRepeats)
  {
    hide Squeeze, Units, TextOf, UnitsCounted, UnitCount;
    var units := Units(text);
    var seen: map<string, nat> := map[];
    ghost var kept: seq<Unit> := [];
    r := "";
    NoUnits();
    for n := 0 to |units|
      invariant kept == CollapseUnits(units[..n], maxRepeats) && r == TextOf(kept)
      invariant UnitsCounted(seen, kept)
    {
      var u := units[n];
      assert units[..n + 1][..n] == units[..n];
      var normalized := Squeeze(u.text);
      UnitsCountedAfter(seen, kept, u);
      TextSnoc(kept, u);
      if |normalized| >= UNIT_LENGTH {
        var count := if normalized in seen then seen[normalized] else 0;
        if count >= maxRepeats {
          continue;
        }
        seen := seen[normalized := count + 1];
      }
      r := r + (u.text + u.separator);
      kept := kept + [u];
    }
    assert units[..|units|] == units;
  }

  lemma NoUnits()
    ensures TextOf([]) == "" && UnitsCounted(map[], [])
  {}

  predicate Whole(u: Unit) {
    |u.separator| == 1 && IsSeparator(u.separator[0]) && forall k | 0 <= k < |u.text| :: !IsSeparator(u.text[k])
  }

  predicate Last(u: Unit) {
    u.separator == "" && forall k | 0 <= k < |u.text| :: !IsSeparator(u.text[k])
  }

  /** Units as splitting makes them, the last perhaps missing. */
  ghost predicate Cut(units: seq<Unit>) {
    forall i | 0 <= i < |units| :: Whole(units[i]) || (i == |units| - 1 && Last(units[i]))
  }

  lemma {:induction false} UnitsAreCut(s: string)
    ensures Cut(Units(s)) && Units(s) != [] && Last(Units(s)[|Units(s)| - 1])
    decreases |s|
  {
    var n := UnitEnd(s, 0);
    if n < |s| {
      UnitsAreCut(s[n + 1..]);
    }
  }

  lemma SeparatorChars(c: char)
    ensures IsSeparator(c) <==> c in "，,。；;！？\n"
  {
    var all := "，,。；;！？\n";
    assert all[0] == '，' && all[1] == ',' && all[2] == '。' && all[3] == '；' && all[4] == ';'
        && all[5] == '！' && all[6] == '？' && all[7] == '\n';
  }

  /** A text is cut exactly at the eight separators, each of which closes the unit before it. */
  lemma UnitsSplit(s: string)
    ensures var u, all := Units(s), "，,。；;！？\n";
            && u != [] && u[|u| - 1].separator == ""
            && (forall i | 0 <= i < |u| - 1 :: |u[i].separator| == 1 && u[i].separator[0] in all)
            && (forall i, k | 0 <= i < |u| && 0 <= k < |u[i].text| :: u[i].text[k] !in all)
  {
    UnitsAreCut(s);
    hide Units;
    forall c: char ensures IsSeparator(c) <==> c in "，,。；;！？\n" {
      SeparatorChars(c);
    }
    hide IsSeparator;
    var u := Units(s);
    forall i | 0 <= i < |u| ensures forall k | 0 <= k < |u[i].text| :: !IsSeparator(u[i].text[k]) {
      assert Whole(u[i]) || Last(u[i]);
    }
    forall i | 0 <= i < |u| - 1 ensures |u[i].separator| == 1 && IsSeparator(u[i].separator[0]) {
      assert Whole(u[i]);
    }
  }

  lemma {:induction false} CollapsedAreCut(units: seq<Unit>, max: nat)
    requires Cut(units)
    ensures Cut(CollapseUnits(units, max))
    ensures (forall i | 0 <= i < |units| :: Whole(units[i])) ==>
              forall i | 0 <= i < |CollapseUnits(units, max)| :: Whole(CollapseUnits(units, max)[i])
  {
    hide Squeeze, Whole, Last, UnitCount;
    if units != [] {
      CollapsedAreCut(units[..|units| - 1], max);
    }
  }

  lemma {:induction false} UnitEndAt(s: string, i: nat, n: nat)
    requires i <= n <= |s| && (n < |s| ==> IsSeparator(s[n]))
    requires forall k | i <= k < n :: !IsSeparator(s[k])
    ensures UnitEnd(s, i) == n
    decreases n - i
  {
    if i < n {
      UnitEndAt(s, i + 1, n);
    }
  }

  lemma UnitsWhole(u: Unit, rest: string)
    requires Whole(u)
    ensures Units(u.text + u.separator + rest) == [u] + Units(rest)
  {
    var s := u.text + u.separator + rest;
    UnitEndAt(s, 0, |u.text|);
    assert s[..|u.text|] == u.text && s[|u.text| + 1..] == rest;
    assert [s[|u.text|]] == u.separator;
  }

  lemma UnitsLast(u: Unit)
    requires Last(u)
    ensures Units(u.text) == [u]
  {
    UnitEndAt(u.text, 0, |u.text|);
  }

  /** Splitting what was put together from cut units gives them back. */
  lemma {:induction false} UnitsOfText(units: seq<Unit>)
    requires Cut(units)
    ensures Units(TextOf(units)) ==
            if units != [] && Last(units[|units| - 1]) then units else units + [Unit("", "")]
  {
    hide Units;
    if units == [] {
      UnitsLast(Unit("", ""));
    } else {
      var u := units[0];
      if Last(u) && |units| == 1 {
        UnitsLast(u);
        assert u.text + "" + "" == u.text;
      } else {
        UnitsOfText(units[1..]);
        UnitsWhole(u, TextOf(units[1..]));
        hide Whole, Last;
        assert units == [u] + units[1..];
      }
    }
  }

  lemma {:induction false} CollapseUnitsTwice(units: seq<Unit>, max: nat)
    ensures CollapseUnits(CollapseUnits(units, max), max) == CollapseUnits(units, max)
  {
    hide Squeeze;
    if units != [] {
      var n := |units| - 1;
      CollapseUnitsTwice(units[..n], max);
      var before := CollapseUnits(units[..n], max);
      var kept := KeepUnit(before, units[n], max);
      if kept != before {
        assert kept[..|before|] == before;
      }
    }
  }

  /** Of every unit of six or more characters `max` copies are kept, or all there are; shorter
      units all stay. */
  lemma {:induction false} CollapseUnitsKeeps(units: seq<Unit>, max: nat, s: string)
    ensures UnitCount(CollapseUnits(units, max), s) ==
            if |s| >= UNIT_LENGTH then Least(UnitCount(units, s), max) else UnitCount(units, s)
  {
    hide Squeeze;
    if units != [] {
      var n := |units| - 1;
      var before, u := CollapseUnits(units[..n], max), units[n];
      CollapseUnitsKeeps(units[..n], max, s);
      UnitCountAfter(before, u);
    }
  }

  predicate UnitsReadAt(units: seq<Unit>, at: seq<nat>, kept: seq<Unit>) {
    && Positions(at, |units|) && |kept| == |at|
    && forall k | 0 <= k < |at| :: kept[k] == units[at[k]]
  }

  /** Unit i stays: it has fewer than six characters that are not white space, or fewer than
      `max` kept units before it have the same ones in the same order. */
  ghost predicate UnitStays(units: seq<Unit>, max: nat, at: seq<nat>, i: nat)
    requires i < |units| && Positions(at, |units|)
  {
    || |set p: nat | p < |units[i].text| && !IsSpace(units[i].text[p])| < 6
    || |set j: nat | j in at && j < i && SameInk(units[j].text, units[i].text)| < max
  }

  ghost predicate AllUnitsStay(units: seq<Unit>, max: nat, at: seq<nat>, n: nat)
    requires n <= |units|
  {
    Positions(at, |units|) && forall i: nat | i < n :: i in at <==> UnitStays(units, max, at, i)
  }

  function Texts(units: seq<Unit>): seq<string> {
    seq(|units|, i requires 0 <= i < |units| => units[i].text)
  }

  lemma {:induction false} UnitCountIs(kept: seq<Unit>, s: string)
    ensures UnitCount(kept, s) == CountOf(Texts(kept), s)
  {
    hide Squeeze;
    if kept != [] {
      var m := |kept| - 1;
      UnitCountIs(kept[..m], s);
      assert Texts(kept)[..m] == Texts(kept[..m]);
    }
  }

  lemma UnitCountIsCopies(units: seq<Unit>, at: seq<nat>, kept: seq<Unit>, text: string, n: nat)
    requires UnitsReadAt(units, at, kept) && Positions(at, n) && n <= |units|
    ensures UnitCount(kept, Squeeze(text)) == |set j: nat | j in at && j < n && SameInk(units[j].text, text)|
  {
    hide Squeeze, SameInk;
    UnitCountIs(kept, Squeeze(text));
    CountIsCopies(Texts(units), at, Texts(kept), text, n);
    assert (set j: nat | j in at && j < n && SameInk(units[j].text, text))
        == (set j: nat | j in at && j < n && SameInk(Texts(units)[j], text));
  }

  lemma UnitStaysBefore(units: seq<Unit>, max: nat, at: seq<nat>, n: nat, i: nat)
    requires i <= n < |units| && Positions(at, n)
    ensures UnitStays(units, max, at + [n], i) <==> UnitStays(units, max, at, i)
  {
    hide SameInk, IsSpace;
    var more := at + [n];
    assert forall j: nat | j < i :: j in more <==> j in at;
    assert (set j: nat | j in more && j < i && SameInk(units[j].text, units[i].text))
        == (set j: nat | j in at && j < i && SameInk(units[j].text, units[i].text));
  }

  lemma UnitStaysOrNot(units: seq<Unit>, max: nat, at: seq<nat>, kept: seq<Unit>, n: nat)
    requires n < |units| && UnitsReadAt(units, at, kept) && Positions(at, n)
    ensures KeepUnit(kept, units[n], max) == if UnitStays(units, max, at, n) then kept + [units[n]] else kept
  {
    hide Squeeze, SameInk, IsSpace, UnitCount;
    UnitCountIsCopies(units, at, kept, units[n].text, n);
    InkCount(units[n].text);
  }

  lemma AllUnitsStaySnoc(units: seq<Unit>, max: nat, before: seq<nat>, n: nat)
    requires n < |units| && Positions(before, n) && AllUnitsStay(units, max, before, n)
    ensures AllUnitsStay(units, max, if UnitStays(units, max, before, n) then before + [n] else before, n + 1)
  {
    hide UnitStays;
    AtSnoc(before, n);
    if UnitStays(units, max, before, n) {
      forall i: nat | i <= n ensures i in before + [n] <==> UnitStays(units, max, before + [n], i) {
        UnitStaysBefore(units, max, before, n, i);
      }
    }
  }

  lemma UnitsReadSnoc(units: seq<Unit>, before: seq<nat>, kept: seq<Unit>, n: nat)
    requires n < |units| && Positions(before, n) && UnitsReadAt(units, before, kept)
    ensures UnitsReadAt(units, before + [n], kept + [units[n]])
  {
    AtSnoc(before, n);
  }

  lemma UnitsKeepSnoc(units: seq<Unit>, max: nat, before: seq<nat>, kept: seq<Unit>, n: nat)
    requires n < |units| && Positions(before, n) && UnitsReadAt(units, before, kept)
    requires AllUnitsStay(units, max, before, n)
    ensures var at := if UnitStays(units, max, before, n) then before + [n] else before;
            && Positions(at, n + 1) && UnitsReadAt(units, at, KeepUnit(kept, units[n], max))
            && AllUnitsStay(units, max, at, n + 1)
  {
    UnitStaysOrNot(units, max, before, kept, n);
    AllUnitsStaySnoc(units, max, before, n);
    AtSnoc(before, n);
    UnitsReadSnoc(units, before, kept, n);
    hide UnitStays, KeepUnit, AllUnitsStay, UnitsReadAt, Ascending;
  }

  ghost predicate UnitsKept(units: seq<Unit>, max: nat, at: seq<nat>, n: nat)
    requires n <= |units|
  {
    && Positions(at, n) && UnitsReadAt(units, at, CollapseUnits(units[..n], max))
    && AllUnitsStay(units, max, at, n)
  }

  lemma UnitsKeptStep(units: seq<Unit>, max: nat, before: seq<nat>, n: nat) returns (at: seq<nat>)
    requires n < |units| && UnitsKept(units, max, before, n)
    ensures UnitsKept(units, max, at, n + 1)
  {
    assert units[..n + 1][..n] == units[..n];
    hide KeepUnit, UnitStays, AllUnitsStay;
    UnitsKeepSnoc(units, max, before, CollapseUnits(units[..n], max), n);
    at := if UnitStays(units, max, before, n) then before + [n] else before;
  }

  lemma {:induction false} UnitsKeepTo(units: seq<Unit>, max: nat, n: nat) returns (at: seq<nat>)
    requires n <= |units|
    ensures UnitsKept(units, max, at, n)
  {
    if n == 0 {
      return [];
    }
    hide UnitsKept;
    at := UnitsKeepTo(units, max, n - 1);
    at := UnitsKeptStep(units, max, at, n - 1);
  }

  /** The units kept are, in order, exactly those that stay. */
  lemma UnitsKeepExactly(units: seq<Unit>, max: nat) returns (at: seq<nat>)
    ensures Positions(at, |units|) && |CollapseUnits(units, max)| == |at|
    ensures forall k | 0 <= k < |at| :: CollapseUnits(units, max)[k] == units[at[k]]
    ensures forall i: nat | i < |units| :: i in at <==> UnitStays(units, max, at, i)
  {
    hide UnitStays, CollapseUnits;
    at := UnitsKeepTo(units, max, |units|);
    assert units[..|units|] == units;
  }

  /** Collapsing the units of a text again changes nothing. */
  lemma CollapsedUnitsTwice(text: string, max: nat)
    ensures CollapsedUnits(CollapsedUnits(text, max), max) == CollapsedUnits(text, max)
  {
    hide Units, TextOf, CollapseUnits, Cut;
    var kept := CollapseUnits(Units(text), max);
    UnitsAreCut(text);
    CollapsedAreCut(Units(text), max);
    CollapseUnitsTwice(Units(text), max);
    UnitsOfText(kept);
    if !(kept != [] && Last(kept[|kept| - 1])) {
      EmptyUnitStays(kept, max);
    }
  }

  lemma EmptyUnitStays(kept: seq<Unit>, max: nat)
    requires CollapseUnits(kept, max) == kept
    ensures TextOf(CollapseUnits(kept + [Unit("", "")], max)) == TextOf(kept)
  {
    var u := Unit("", "");
    assert (kept + [u])[..|kept|] == kept;
    TextSnoc(kept, u);
    assert TextOf(kept) + ("" + "") == TextOf(kept);
    hide TextOf, UnitCount;
  }
}
