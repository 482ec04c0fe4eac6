/** Sanitizing a sanitized text: when another pass changes it, and how many passes it takes. */
module SanitizerPasses {
  import opened Text
  import opened Sanitizer
  import opened HeadingTrim

  // ---------- how often a unit stands in a text ----------

  function TimesIn(text: string, s: string): nat {
    UnitCount(Units(text), s)
  }

  function LinesCount(lines: seq<string>, s: string): nat {
    if lines == [] then 0 else LinesCount(lines[..|lines| - 1], s) + TimesIn(lines[|lines| - 1], s)
  }

  lemma {:induction false} UnitCountAppend(a: seq<Unit>, b: seq<Unit>, s: string)
    ensures UnitCount(a + b, s) == UnitCount(a, s) + UnitCount(b, s)
  {
    hide Squeeze;
    if b == [] {
      assert a + b == a;
    } else {
      var n := |b| - 1;
      assert a + b == a + b[..n] + [b[n]];
      UnitCountAfter(a + b[..n], b[n]);
      UnitCountAppend(a, b[..n], s);
    }
  }

  lemma UnitCountOne(u: Unit, s: string)
    ensures UnitCount([u], s) == if Squeeze(u.text) == s then 1 else 0
  {
    assert [u][..0] == [];
    hide Squeeze;
  }

  /** The units of a text, from its first separator on. */
  lemma CountCut(text: string, s: string)
    ensures var n := UnitEnd(text, 0);
            TimesIn(text, s) == (if Squeeze(text[..n]) == s then 1 else 0) +
                                if n < |text| then TimesIn(text[n + 1..], s) else 0
  {
    hide Squeeze, UnitCount;
    var n := UnitEnd(text, 0);
    if n == |text| {
      assert text[..n] == text;
      UnitCountOne(Unit(text, ""), s);
    } else {
      UnitCountOne(Unit(text[..n], [text[n]]), s);
      UnitCountAppend([Unit(text[..n], [text[n]])], Units(text[n + 1..]), s);
    }
  }

  lemma {:induction false} CountBreak(a: string, b: string, s: string)
    ensures TimesIn(a + "\n" + b, s) == TimesIn(a, s) + TimesIn(b, s)
    decreases |a|
  {
    hide Squeeze, TimesIn;
    var n := UnitEnd(a, 0);
    var text := a + "\n" + b;
    UnitEndAt(text, 0, n) by {
      assert forall k | 0 <= k < n :: text[k] == a[k];
      assert n < |a| ==> text[n] == a[n];
    }
    CountCut(a, s);
    CountCut(text, s);
    assert text[..n] == a[..n];
    if n < |a| {
      CountBreak(a[n + 1..], b, s);
      assert text[n + 1..] == a[n + 1..] + "\n" + b;
    } else {
      assert text[n + 1..] == b;
    }
  }

  lemma CountNothing(s: string)
    ensures s != "" ==> TimesIn("", s) == 0
  {
    hide TimesIn;
    CountCut("", s);
  }

  /** White space at the end of a line does not matter. */
  lemma {:induction false} CountStripped(a: string, blank: string, s: string)
    requires IsBlank(blank) && IsLine(blank)
    ensures TimesIn(a + blank, s) == TimesIn(a, s)
    decreases |a|
  {
    hide Squeeze, TimesIn;
    var n := UnitEnd(a, 0);
    var text := a + blank;
    CountCut(a, s);
    CountCut(text, s);
    if n < |a| {
      UnitEndAt(text, 0, n);
      assert text[..n] == a[..n] && text[n + 1..] == a[n + 1..] + blank;
      CountStripped(a[n + 1..], blank, s);
    } else {
      BlankSeparators(blank);
      UnitEndAt(text, 0, |text|);
      assert text[..|text|] == text && a[..n] == a;
      SqueezeAppend(a, blank);
      BlankSqueeze(blank);
      assert Squeeze(a) + "" == Squeeze(a);
    }
  }

  lemma BlankSeparators(blank: string)
    requires IsBlank(blank) && IsLine(blank)
    ensures forall k | 0 <= k < |blank| :: !IsSeparator(blank[k])
  {}

  lemma {:induction false} JoinedCount(lines: seq<string>, s: string)
    requires s != ""
    ensures TimesIn(JoinLines(lines), s) == LinesCount(lines, s)
  {
    hide TimesIn;
    if lines == [] {
      CountNothing(s);
    } else {
      var n := |lines| - 1;
      var init := lines[..n];
      assert lines == init + [lines[n]];
      JoinedCount(init, s);
      if n == 0 {
        assert init == [] && lines == [lines[0]];
        assert LinesCount(init, s) == 0;
      } else {
        JoinSnoc(init, lines[n]);
        Assoc(JoinLines(init), "\n", lines[n]);
        CountBreak(JoinLines(init), lines[n], s);
      }
    }
  }

  lemma {:induction false} CollapsedCount(lines: seq<string>, max: nat, s: string)
    ensures LinesCount(CollapseLines(lines, max), s) <= LinesCount(lines, s)
  {
    hide Squeeze, IsBlank, TimesIn, CountOf;
    if lines != [] {
      var n := |lines| - 1;
      var before := CollapseLines(lines[..n], max);
      CollapsedCount(lines[..n], max, s);
      assert (before + [lines[n]])[..|before|] == before;
    }
  }

  lemma {:induction false} PrefixCount(lines: seq<string>, n: nat, s: string)
    requires n <= |lines|
    ensures LinesCount(lines[..n], s) <= LinesCount(lines, s)
  {
    hide TimesIn;
    if n < |lines| {
      PrefixCount(lines[..|lines| - 1], n, s);
      assert lines[..|lines| - 1][..n] == lines[..n];
    } else {
      assert lines[..n] == lines;
    }
  }

  lemma {:induction false} TidiedCount(lines: seq<string>, s: string)
    requires AreLines(lines)
    ensures LinesCount(Tidied(lines), s) <= LinesCount(lines, s)
  {
    hide TimesIn, IsBlank, RStrip, IsLine;
    if lines != [] {
      var n := |lines| - 1;
      TidiedCount(lines[..n], s);
      var last := lines[n];
      assert (lines[..n] + [RStrip(last)])[..n] == lines[..n];
      StrippedCount(last, s);
    }
  }

  lemma StrippedCount(line: string, s: string)
    requires IsLine(line)
    ensures TimesIn(RStrip(line), s) == TimesIn(line, s)
  {
    RStripCut(line);
    var n := |RStrip(line)|;
    assert line == RStrip(line) + line[n..];
    CountStripped(RStrip(line), line[n..], s);
    hide TimesIn, RStrip;
  }

  // ---------- texts whose lines end in newlines only ----------

  predicate Plain(text: string) {
    forall i | 0 <= i < |text| :: IsLineBreak(text[i]) ==> text[i] == '\n'
  }

  /** Such a text is its lines, joined, with or without a newline at the end. */
  lemma {:induction false} PlainLines(text: string)
    requires Plain(text)
    ensures text == JoinLines(SplitLines(text)) || text == JoinLines(SplitLines(text)) + "\n"
    decreases |text|
  {
    hide IsLineBreak;
    var n := BreakAt(text);
    BreakAtLine(text);
    if text != "" && n < |text| {
      assert text[n] == '\n' && BreakWidth(text, n) == 1;
      var rest := text[n + 1..];
      PlainLines(rest);
      SplitLinesCut(text);
      assert text == text[..n] + "\n" + rest;
      var lines := SplitLines(rest);
      assert SplitLines(text) == [text[..n]] + lines;
      if lines == [] {
        assert JoinLines(SplitLines(text)) == text[..n];
        PlainEmpty(rest);
      } else {
        JoinAppend([text[..n]], lines, "\n");
        Assoc(text[..n] + "\n", JoinLines(lines), "\n");
      }
    }
  }

  lemma PlainEmpty(text: string)
    ensures SplitLines(text) == [] ==> text == ""
  {
    hide BreakAt, BreakWidth;
  }

  lemma PlainCount(text: string, s: string)
    requires Plain(text) && s != ""
    ensures TimesIn(text, s) == LinesCount(SplitLines(text), s)
  {
    hide Plain, SplitLines, TimesIn, JoinLines;
    PlainLines(text);
    var joined := JoinLines(SplitLines(text));
    JoinedCount(SplitLines(text), s);
    if text != joined {
      CountBreak(joined, "", s);
      CountNothing(s);
      assert joined + "\n" + "" == joined + "\n";
    }
  }

  lemma {:induction false} JoinedPlain(lines: seq<string>)
    requires AreLines(lines)
    ensures Plain(JoinLines(lines))
  {
    hide IsLineBreak;
    if |lines| > 1 {
      assert AreLines(lines[1..]);
      JoinedPlain(lines[1..]);
      var l, rest := lines[0], JoinLines(lines[1..]);
      assert JoinLines(lines) == l + "\n" + rest;
      forall i | 0 <= i < |l + "\n" + rest| && IsLineBreak((l + "\n" + rest)[i])
        ensures (l + "\n" + rest)[i] == '\n'
      {
        if i > |l| {
          assert (l + "\n" + rest)[i] == rest[i - |l| - 1];
        }
      }
    } else if |lines| == 1 {
      assert IsLine(lines[0]);
    }
  }

  /** Dropping units leaves a plain text plain. */
  lemma {:induction false} KeptPlain(units: seq<Unit>, max: nat)
    requires Plain(TextOf(units))
    ensures Plain(TextOf(CollapseUnits(units, max)))
  {
    hide IsLineBreak, Squeeze, UnitCount;
    if units != [] {
      var n := |units| - 1;
      var u := units[n];
      assert units == units[..n] + [u];
      TextSnoc(units[..n], u);
      PlainParts(TextOf(units[..n]), u.text + u.separator);
      KeptPlain(units[..n], max);
      TextSnoc(CollapseUnits(units[..n], max), u);
      PlainJoined(TextOf(CollapseUnits(units[..n], max)), u.text + u.separator);
    }
  }

  lemma PlainParts(a: string, b: string)
    requires Plain(a + b)
    ensures Plain(a) && Plain(b)
  {
    hide IsLineBreak;
    forall i | 0 <= i < |a|
      ensures (a + b)[i] == a[i]
    {}
    forall i | 0 <= i < |b|
      ensures IsLineBreak(b[i]) ==> b[i] == '\n'
    {
      assert (a + b)[|a| + i] == b[i];
    }
  }

  lemma PlainJoined(a: string, b: string)
    requires Plain(a) && Plain(b)
    ensures Plain(a + b)
  {
    hide IsLineBreak;
  }

  // ---------- what a sanitized text looks like ----------

  /** Some unit of six or more characters stands in the text twice. */
  ghost predicate RepeatsUnit(text: string) {
    exists s: string :: |s| >= UNIT_LENGTH && TimesIn(text, s) >= 2
  }

  predicate EndsInBreak(text: string) {
    text != "" && text[|text| - 1] == '\n'
  }

  /** Joined from lines that collapsing leaves alone. */
  ghost predicate Collapsed(text: string, lines: seq<string>) {
    && text == JoinLines(lines) && AreLines(lines) && NoAdjacentBlank(lines)
    && CollapseLines(lines, MAX_LINE_REPEATS) == lines
  }

  lemma {:induction false} CollapsedPrefix(lines: seq<string>, max: nat, n: nat)
    requires CollapseLines(lines, max) == lines && n <= |lines|
    ensures CollapseLines(lines[..n], max) == lines[..n]
    decreases |lines|
  {
    hide CollapseLines;
    if n < |lines| {
      CollapsedInit(lines, max);
      CollapsedPrefix(lines[..|lines| - 1], max, n);
      assert lines[..|lines| - 1][..n] == lines[..n];
    } else {
      assert lines[..n] == lines;
    }
  }

  lemma RStripSqueeze(line: string)
    ensures Squeeze(RStrip(line)) == Squeeze(line)
  {
    RStripCut(line);
    var n := |RStrip(line)|;
    assert line == RStrip(line) + line[n..];
    SqueezeAppend(RStrip(line), line[n..]);
    BlankSqueeze(line[n..]);
    assert Squeeze(RStrip(line)) + "" == Squeeze(RStrip(line));
  }

  lemma {:induction false} TidiedCollapsed(lines: seq<string>, max: nat)
    requires CollapseLines(lines, max) == lines && NoAdjacentBlank(lines)
    ensures CollapseLines(Tidied(lines), max) == Tidied(lines) && NoAdjacentBlank(Tidied(lines))
  {
    hide CollapseLines, Squeeze, RStrip, IsBlank, NoAdjacentBlank;
    if lines != [] {
      var n := |lines| - 1;
      CollapsedInit(lines, max);
      NoAdjacentPrefix(lines, n);
      if IsBlank(lines[n]) {
        TidiedCollapsed(lines[..n], max);
      } else {
        StripLast(lines, max);
      }
    }
  }

  lemma StripLast(lines: seq<string>, max: nat)
    requires lines != [] && CollapseLines(lines, max) == lines && NoAdjacentBlank(lines)
    requires !IsBlank(lines[|lines| - 1])
    ensures var stripped := lines[..|lines| - 1] + [RStrip(lines[|lines| - 1])];
            CollapseLines(stripped, max) == stripped && NoAdjacentBlank(stripped)
  {
    hide Squeeze, RStrip, IsBlank, CountOf;
    var n := |lines| - 1;
    var init, last := lines[..n], lines[n];
    var stripped := init + [RStrip(last)];
    CollapsedInit(lines, max);
    RStripSqueeze(last);
    BlankSqueeze(last);
    BlankSqueeze(RStrip(last));
    assert stripped[..n] == init;
    assert CollapseLines(lines, max) == KeepLine(CollapseLines(init, max), last, max);
    assert CollapseLines(stripped, max) == KeepLine(CollapseLines(init, max), RStrip(last), max);
    forall i: nat
      ensures !BothBlank(stripped, i)
    {
      assert !BothBlank(lines, i);
    }
  }

  /** The lines a sanitized text is made of; no unit stands in them more often than in the lines
      of the text after the first stage. */
  lemma SanitizedLines(env: Env, text: string) returns (lines: seq<string>)
    ensures Collapsed(Sanitized(env, text), lines)
    ensures forall s | s != "" ::
              LinesCount(lines, s) <= LinesCount(SplitLines(CollapsedUnits(text, MAX_UNIT_REPEATS)), s)
  {
    hide CollapsedUnits, SplitLines, JoinLines, CollapseLines, Headings, FirstRepetitive, Tidied, AreLines,
        NoAdjacentBlank, TimesIn, RStrip, LinesCount;
    var w := CollapsedUnits(text, MAX_UNIT_REPEATS);
    var kept := CollapseLines(SplitLines(w), MAX_LINE_REPEATS);
    var joined := JoinLines(kept);
    SplitLinesAreLines(w);
    CollapsedAreLines(SplitLines(w), MAX_LINE_REPEATS);
    CollapseLinesTwice(SplitLines(w), MAX_LINE_REPEATS);
    CollapseLinesIs(SplitLines(w), MAX_LINE_REPEATS);
    SplitJoin(kept);
    var split := SplitLines(joined);
    assert split == kept[..|split|];
    var f := FirstRepetitive(Headings(env, split), 0);
    if f < |Headings(env, split)| && Headings(env, split)[f].at <= |split| {
      var at := Headings(env, split)[f].at;
      assert split[..at] == kept[..at];
      CollapsedPrefix(kept, MAX_LINE_REPEATS, at);
      NoAdjacentPrefix(kept, at);
      LinesPrefix(kept, at);
      RStripJoin(kept[..at]);
      TidiedAreLines(kept[..at]);
      TidiedCollapsed(kept[..at], MAX_LINE_REPEATS);
      lines := Tidied(kept[..at]);
    } else {
      lines := kept;
    }
    forall s | s != ""
      ensures LinesCount(lines, s) <= LinesCount(SplitLines(w), s)
    {
      CollapsedCount(SplitLines(w), MAX_LINE_REPEATS, s);
      if lines != kept {
        var at := Headings(env, split)[f].at;
        PrefixCount(kept, at, s);
        TidiedCount(kept[..at], s);
      }
    }
  }

  lemma SanitizedPlain(env: Env, text: string)
    ensures Plain(Sanitized(env, text))
  {
    hide Sanitized, Plain, JoinLines, AreLines, CollapseLines, NoAdjacentBlank;
    var lines := SanitizedLines(env, text);
    JoinedPlain(lines);
  }

  /** Once the breaks are newlines, no long unit is left twice. */
  lemma PlainSanitized(env: Env, text: string)
    requires Plain(text)
    ensures !RepeatsUnit(Sanitized(env, text))
  {
    hide Sanitized, Plain, JoinLines, AreLines, CollapseLines, NoAdjacentBlank, TimesIn, LinesCount, CollapsedUnits,
        SplitLines;
    var lines := SanitizedLines(env, text);
    var w := CollapsedUnits(text, MAX_UNIT_REPEATS);
    StagePlain(text);
    forall s: string | |s| >= UNIT_LENGTH
      ensures TimesIn(Sanitized(env, text), s) <= 1
    {
      JoinedCount(lines, s);
      PlainCount(w, s);
      StageCount(text, s);
    }
  }

  lemma StagePlain(text: string)
    requires Plain(text)
    ensures Plain(CollapsedUnits(text, MAX_UNIT_REPEATS))
  {
    hide Plain, Units, TextOf, CollapseUnits;
    UnitsRejoin(text);
    KeptPlain(Units(text), MAX_UNIT_REPEATS);
  }

  lemma StageCount(text: string, s: string)
    requires |s| >= UNIT_LENGTH
    ensures TimesIn(CollapsedUnits(text, MAX_UNIT_REPEATS), s) <= 1
  {
    hide Units, TextOf, CollapseUnits, Cut, UnitCount, Squeeze;
    var kept := CollapseUnits(Units(text), MAX_UNIT_REPEATS);
    UnitsAreCut(text);
    CollapsedAreCut(Units(text), MAX_UNIT_REPEATS);
    UnitsOfText(kept);
    CollapseUnitsKeeps(Units(text), MAX_UNIT_REPEATS, s);
    UnitCountAppend(kept, [Unit("", "")], s);
    UnitCountOne(Unit("", ""), s);
    BlankSqueeze("");
  }

  // ---------- another pass ----------

  /** The first stage changes a text exactly if a long unit stands in it twice, and then it gets
      shorter. */
  lemma StageExactly(text: string)
    ensures var w := CollapsedUnits(text, MAX_UNIT_REPEATS);
            |w| <= |text| && (w == text <==> !RepeatsUnit(text)) && (w != text ==> |w| < |text|)
  {
    hide Units, UnitCount, Squeeze, CollapseUnits, TextOf;
    UnitsRejoin(text);
    var units := Units(text);
    CollapsedShorter(units, MAX_UNIT_REPEATS);
    if RepeatsUnit(text) {
      var s: string :| |s| >= UNIT_LENGTH && TimesIn(text, s) >= 2;
      CollapseUnitsKeeps(units, MAX_UNIT_REPEATS, s);
      assert UnitCount(CollapseUnits(units, MAX_UNIT_REPEATS), s) <= 1;
    } else {
      forall s: string | |s| >= UNIT_LENGTH
        ensures UnitCount(units, s) <= MAX_UNIT_REPEATS
      {
        assert TimesIn(text, s) < 2;
      }
      NothingDropped(units, MAX_UNIT_REPEATS);
    }
  }

  lemma {:induction false} CollapsedShorter(units: seq<Unit>, max: nat)
    ensures var kept := CollapseUnits(units, max);
            |TextOf(kept)| <= |TextOf(units)| && (kept != units ==> |TextOf(kept)| < |TextOf(units)|)
  {
    hide UnitCount, TextOf, Squeeze;
    if units != [] {
      var n := |units| - 1;
      var u := units[n];
      CollapsedShorter(units[..n], max);
      assert units == units[..n] + [u];
      TextSnoc(units[..n], u);
      TextSnoc(CollapseUnits(units[..n], max), u);
      SqueezeShort(u.text);
    }
  }

  lemma SqueezeShort(s: string)
    ensures |Squeeze(s)| <= |s|
  {}

  lemma {:induction false} NothingDropped(units: seq<Unit>, max: nat)
    requires forall s: string | |s| >= UNIT_LENGTH :: UnitCount(units, s) <= max
    ensures CollapseUnits(units, max) == units
  {
    hide Squeeze, UnitCount;
    if units != [] {
      var n := |units| - 1;
      var u := units[n];
      assert units == units[..n] + [u];
      UnitCountAfter(units[..n], u);
      NothingDropped(units[..n], max);
    }
  }

  /** The weight of lines: their characters and a newline each. */
  function Weight(lines: seq<string>): nat {
    if lines == [] then 0 else Weight(lines[..|lines| - 1]) + |lines[|lines| - 1]| + 1
  }

  lemma {:induction false} JoinedWeight(lines: seq<string>)
    ensures |JoinLines(lines)| == if lines == [] then 0 else Weight(lines) - 1
  {
    if lines != [] {
      var n := |lines| - 1;
      JoinedWeight(lines[..n]);
      assert lines == lines[..n] + [lines[n]];
      if n > 0 {
        JoinSnoc(lines[..n], lines[n]);
      } else {
        assert lines == [lines[0]];
      }
      hide JoinLines;
    }
  }

  lemma {:induction false} WeightCons(l: string, lines: seq<string>)
    ensures Weight([l] + lines) == |l| + 1 + Weight(lines)
  {
    if lines == [] {
      assert [l] + lines == [l] && [l][..0] == [];
    } else {
      WeightCons(l, lines[..|lines| - 1]);
      assert ([l] + lines)[..|lines|] == [l] + lines[..|lines| - 1];
    }
  }

  lemma {:induction false} SplitWeight(text: string)
    ensures Weight(SplitLines(text)) <= |text| + 1 && (text == "" ==> SplitLines(text) == [])
    decreases |text|
  {
    hide Weight;
    var n := BreakAt(text);
    if text == "" {
      WeightNone();
    } else if n < |text| {
      var rest := text[n + BreakWidth(text, n)..];
      SplitWeight(rest);
      SplitLinesCut(text);
      WeightCons(text[..n], SplitLines(rest));
      hide SplitLines;
      WeightNone();
    } else {
      WeightCons(text, []);
      assert [text] + [] == [text];
      WeightNone();
    }
  }

  lemma WeightNone()
    ensures Weight([]) == 0
  {}

  lemma {:induction false} CollapsedWeight(lines: seq<string>, max: nat)
    ensures Weight(CollapseLines(lines, max)) <= Weight(lines)
    ensures lines == [] ==> CollapseLines(lines, max) == []
  {
    hide Squeeze, IsBlank, CountOf;
    if lines != [] {
      var n := |lines| - 1;
      var before := CollapseLines(lines[..n], max);
      CollapsedWeight(lines[..n], max);
      assert (before + [lines[n]])[..|before|] == before;
    }
  }

  lemma LinesShorten(text: string, max: nat)
    ensures |CollapsedLines(text, max)| <= |text|
  {
    hide SplitLines, CollapseLines, Weight, JoinLines;
    SplitWeight(text);
    CollapsedWeight(SplitLines(text), max);
    JoinedWeight(CollapseLines(SplitLines(text), max));
  }

  lemma {:induction false} PrefixWeight(lines: seq<string>, n: nat)
    requires n <= |lines|
    ensures Weight(lines[..n]) <= Weight(lines)
  {
    if n < |lines| {
      PrefixWeight(lines[..|lines| - 1], n);
      assert lines[..|lines| - 1][..n] == lines[..n];
    } else {
      assert lines[..n] == lines;
    }
  }

  lemma TrimShorter(env: Env, text: string)
    ensures |Trim(env, text)| <= |text|
  {
    hide SplitLines, Headings, FirstRepetitive, Weight, JoinLines;
    var lines := SplitLines(text);
    var headings := Headings(env, lines);
    var f := FirstRepetitive(headings, 0);
    SplitWeight(text);
    if f < |headings| && headings[f].at <= |lines| {
      var above := lines[..headings[f].at];
      PrefixWeight(lines, headings[f].at);
      JoinedWeight(above);
      assert |RStrip(JoinLines(above))| <= |JoinLines(above)|;
    }
  }

  /** Lines joined end in a newline exactly if the last of several is empty. */
  lemma EndsJoined(lines: seq<string>)
    requires AreLines(lines)
    ensures EndsInBreak(JoinLines(lines)) <==> |lines| >= 2 && lines[|lines| - 1] == ""
  {
    if |lines| == 0 {
    } else if |lines| == 1 {
      assert IsLine(lines[0]) && JoinLines(lines) == lines[0];
    } else {
      var n := |lines| - 1;
      assert lines == lines[..n] + [lines[n]] && IsLine(lines[n]);
      JoinSnoc(lines[..n], lines[n]);
      hide JoinLines;
      if lines[n] != "" {
        assert JoinLines(lines)[|JoinLines(lines)| - 1] == lines[n][|lines[n]| - 1];
      }
    }
  }

  /** When another pass changes a sanitized text: exactly if it ends in a newline or a long unit
      stands in it twice. */
  lemma SanitizedAgain(env: Env, text: string)
    requires env.Valid()
    ensures var r := Sanitized(env, text);
            Sanitized(env, r) != r <==> EndsInBreak(r) || RepeatsUnit(r)
  {
    hide CollapsedUnits, CollapsedLines, Trim, RepeatsUnit, EndsInBreak, Sanitized, JoinLines, AreLines, CollapseLines,
        NoAdjacentBlank;
    var r := Sanitized(env, text);
    var lines := SanitizedLines(env, text);
    var w := CollapsedUnits(r, MAX_UNIT_REPEATS);
    SanitizedIs(env, r);
    SanitizedIs(env, text);
    StageExactly(r);
    LinesShorten(w, MAX_LINE_REPEATS);
    TrimShorter(env, CollapsedLines(w, MAX_LINE_REPEATS));
    TrimTwice(env, CollapsedLines(CollapsedUnits(text, MAX_UNIT_REPEATS), MAX_LINE_REPEATS));
    EndsJoined(lines);
    CollapsedAgain(lines, MAX_LINE_REPEATS);
  }

  lemma SanitizedIs(env: Env, text: string)
    ensures Sanitized(env, text) ==
            Trim(env, CollapsedLines(CollapsedUnits(text, MAX_UNIT_REPEATS), MAX_LINE_REPEATS))
  {
    hide CollapsedUnits, SplitLines, JoinLines, CollapseLines, Trim;
  }

  /** For a text whose only breaks are newlines a second pass at most drops a newline at the end,
      and a third changes nothing. */
  lemma PlainTwice(env: Env, text: string)
    requires env.Valid() && Plain(text)
    ensures var once := Sanitized(env, text);
            var twice := Sanitized(env, once);
            && (twice != once <==> EndsInBreak(once))
            && (twice != once ==> once == twice + "\n")
            && Sanitized(env, twice) == twice
  {
    hide CollapsedUnits, CollapsedLines, Trim, RepeatsUnit, EndsInBreak, Sanitized, Plain, JoinLines, AreLines,
        CollapseLines, NoAdjacentBlank;
    var once := Sanitized(env, text);
    PlainSanitized(env, text);
    SanitizedAgain(env, text);
    if EndsInBreak(once) {
      BreakDropped(env, text);
      SanitizedPlain(env, text);
      PlainSanitized(env, once);
      SanitizedAgain(env, once);
    }
  }

  /** What the second pass makes of a newline at the end. */
  lemma BreakDropped(env: Env, text: string)
    requires env.Valid() && EndsInBreak(Sanitized(env, text)) && !RepeatsUnit(Sanitized(env, text))
    ensures var once := Sanitized(env, text);
            var twice := Sanitized(env, once);
            once == twice + "\n" && !EndsInBreak(twice)
  {
    hide CollapsedUnits, Trim, RepeatsUnit, EndsInBreak, Sanitized, SplitLines, JoinLines, AreLines, CollapseLines,
        NoAdjacentBlank, AnyRepetitive, Headings;
    var once := Sanitized(env, text);
    var lines := SanitizedLines(env, text);
    var n := |lines| - 1;
    EndsJoined(lines);
    StageExactly(once);
    CollapsedAgain(lines, MAX_LINE_REPEATS);
    var shorter := CollapsedLines(once, MAX_LINE_REPEATS);
    SanitizedIs(env, once);
    SanitizedIs(env, text);
    TrimTwice(env, CollapsedLines(CollapsedUnits(text, MAX_UNIT_REPEATS), MAX_LINE_REPEATS));
    TrimsExactlyRepetitive(env, once);
    TrimsExactlyRepetitive(env, shorter);
    NotTwoBlank(lines, MAX_LINE_REPEATS);
    LinesPrefix(lines, n);
    EndsJoined(lines[..n]);
    SplitJoin(lines);
    SplitJoin(lines[..n]);
  }

  /** For every text: after three passes at the latest nothing changes any more. */
  lemma ThreePasses(env: Env, text: string)
    requires env.Valid()
    ensures var thrice := Sanitized(env, Sanitized(env, Sanitized(env, text)));
            Sanitized(env, thrice) == thrice
  {
    hide Sanitized, Plain, EndsInBreak;
    SanitizedPlain(env, text);
    PlainTwice(env, Sanitized(env, text));
  }

  // ---------- an input ----------

  lemma {:induction false} ShortUnits(text: string, s: string)
    requires |text| < UNIT_LENGTH <= |s|
    ensures TimesIn(text, s) == 0
    decreases |text|
  {
    hide TimesIn, Squeeze;
    CountCut(text, s);
    var n := UnitEnd(text, 0);
    SqueezeShort(text[..n]);
    if n < |text| {
      ShortUnits(text[n + 1..], s);
    }
  }

  lemma {:induction false} FewHeadings(env: Env, lines: seq<string>)
    ensures |Headings(env, lines)| <= |lines|
  {
    if lines != [] {
      FewHeadings(env, lines[..|lines| - 1]);
    }
  }

  /** A short text goes through the first and the last stage unchanged. */
  lemma ShortText(env: Env, text: string)
    requires |text| < UNIT_LENGTH && |SplitLines(text)| < WINDOW
    ensures CollapsedUnits(text, MAX_UNIT_REPEATS) == text && Trim(env, text) == text
  {
    hide CollapsedUnits, TimesIn, SplitLines, Headings, FirstRepetitive;
    forall s: string | |s| >= UNIT_LENGTH
      ensures TimesIn(text, s) < 2
    {
      ShortUnits(text, s);
    }
    StageExactly(text);
    FewHeadings(env, SplitLines(text));
    NoWindowLeft(Headings(env, SplitLines(text)), 0);
  }

  /** A text on which the second pass differs from the first. */
  lemma PassesDiffer(env: Env)
    ensures Sanitized(env, "a\n\n") == "a\n" && Sanitized(env, "a\n") == "a"
  {
    hide CollapsedUnits, CollapsedLines, Trim, Sanitized, SplitLines;
    SecondPassDiffers();
    ShortLines();
    ShortText(env, "a\n\n");
    ShortText(env, "a\n");
    ShortText(env, "a");
    SanitizedIs(env, "a\n\n");
    SanitizedIs(env, "a\n");
  }

  lemma ShortLines()
    ensures SplitLines("a\n\n") == ["a", ""] && SplitLines("a\n") == ["a"] && SplitLines("a") == ["a"]
  {
    hide SplitLines;
    SplitLinesCons("a", "\n");
    SplitLinesCons("", "");
    SplitLinesCons("a", "");
    SplitLinesSingle("");
    SplitLinesSingle("a");
    assert "a" + "\n" + "\n" == "a\n\n" && "" + "\n" + "" == "\n" && "a" + "\n" + "" == "a\n";
  }
}
