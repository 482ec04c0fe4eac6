/** What the parser returns, said of the lines alone: which lines open a section, what each
    section, entry and warning holds. */
module OutlineResult {
  import opened Wrappers
  import opened Text
  import opened Outline

  /** What each line is: a page split, a heading by the patterns, or text. */
  lemma LinesAre(env: Env, lines: seq<string>, i: nat)
    requires i < |lines|
    ensures var item, line := Items(env, lines)[i], Strip(lines[i]);
            && (item == PageBreak <==> line == "<--- Page Split --->")
            && (forall h :: item == Head(h) <==>
                  line != "<--- Page Split --->" && line != "" && env.pattern(line) == Some(h))
            && (item.Body? ==> item.raw == lines[i])
  {
    hide Strip;
  }

  // ---------- lists of positions ----------

  /** The headings that enclose heading i, and i itself, from the outermost inwards: every
      heading after one of them, up to i, is on a deeper level. */
  ghost predicate AncestorsAt(items: seq<Item>, i: nat, at: seq<nat>)
    requires i < |items| && items[i].Head?
  {
    && Ascending(at)
    && forall j: nat {:trigger j in at} :: j in at <==>
         && j <= i && items[j].Head?
         && forall k | j < k <= i && items[k].Head? :: items[j].heading.level < items[k].heading.level
  }

  /** The text lines from line a up to line b. */
  ghost predicate BodiesAt(items: seq<Item>, a: nat, b: nat, at: seq<nat>)
    requires a <= b <= |items|
  {
    Ascending(at) && forall j: nat {:trigger j in at} :: j in at <==> a <= j < b && items[j].Body?
  }

  lemma {:induction false} AncestorsListed(items: seq<Item>, n: nat, i: nat) returns (at: seq<nat>)
    requires n <= i + 1 && i < |items|
    ensures Ascending(at) && forall j: nat {:trigger j in at} :: j in at <==> j < n && IsAncestor(items, j, i)
    ensures |Ancestors(items, n, i)| == |at|
    ensures forall k | 0 <= k < |at| ::
              at[k] < |items| && items[at[k]].Head? && Ancestors(items, n, i)[k] == Placed(at[k], items[at[k]].heading)
  {
    hide IsAncestor;
    if n == 0 {
      return [];
    }
    var before := AncestorsListed(items, n - 1, i);
    at := before;
    AscendingSnoc(before, n - 1);
    if IsAncestor(items, n - 1, i) {
      at := before + [n - 1];
      AncestorIsHead(items, n - 1, i);
    }
  }

  lemma AncestorIsHead(items: seq<Item>, j: nat, i: nat)
    requires j <= i < |items| && IsAncestor(items, j, i)
    ensures items[j].Head?
  {}

  lemma {:induction false} BodiesListed(items: seq<Item>, a: nat, b: nat) returns (at: seq<nat>)
    requires a <= b <= |items|
    ensures BodiesAt(items, a, b, at) && |Bodies(items, a, b)| == |at|
    ensures forall k | 0 <= k < |at| :: at[k] < b && items[at[k]].Body? && Bodies(items, a, b)[k] == items[at[k]].raw
    decreases b
  {
    if a == b {
      return [];
    }
    var before := BodiesListed(items, a, b - 1);
    at := before;
    AscendingSnoc(before, b - 1);
    if items[b - 1].Body? {
      at := before + [b - 1];
    }
  }

  // ---------- what a section holds ----------

  /** Line c opens a section, -1 standing for the untitled one, and e is the next heading after
      it or the end of the text. */
  ghost predicate Span(items: seq<Item>, c: int, e: nat) {
    && -1 <= c < e <= |items| && (c >= 0 ==> items[c].Head?) && (e < |items| ==> items[e].Head?)
    && forall k | c < k < e :: !items[k].Head?
  }

  /** The titles of the enclosing headings, from the outermost down to heading c itself. */
  ghost predicate PathIs(items: seq<Item>, c: nat, path: seq<string>)
    requires c < |items| && items[c].Head?
  {
    exists at :: AncestorsAt(items, c, at) && TitlesAt(items, at, path)
  }

  ghost predicate TitlesAt(items: seq<Item>, at: seq<nat>, path: seq<string>) {
    && |path| == |at|
    && forall k | 0 <= k < |at| :: at[k] < |items| && items[at[k]].Head? && path[k] == items[at[k]].heading.title
  }

  /** The text lines from a up to b, joined and stripped. */
  ghost predicate ContentIs(items: seq<Item>, a: nat, b: nat, content: string)
    requires a <= b <= |items|
  {
    exists at, body :: BodiesAt(items, a, b, at) && RawAt(items, at, body) && content == Strip(JoinLines(body))
  }

  ghost predicate RawAt(items: seq<Item>, at: seq<nat>, body: seq<string>) {
    && |body| == |at|
    && forall k | 0 <= k < |at| :: at[k] < |items| && items[at[k]].Body? && body[k] == items[at[k]].raw
  }

  /** The page that line n is on. */
  ghost function PageOfLine(items: seq<Item>, n: nat): nat
    requires n <= |items|
  {
    1 + |set i | 0 <= i < n && items[i].PageBreak?|
  }

  /** The section opened at line c and closed at line e. */
  ghost predicate Describes(env: Env, items: seq<Item>, c: int, e: nat, s: Section)
    requires Span(items, c, e)
  {
    && (if c < 0 then s.title == "未分章节" && s.level == 1 && s.path == ["未分章节"]
        else s.title == items[c].heading.title && s.level == items[c].heading.level && PathIs(items, c, s.path))
    && s.id == env.sha1(Join(s.path, " / "))
    && ContentIs(items, c + 1, e, s.content)
    && s.pageStart == Some(if c < 0 then 1 else PageOfLine(items, c)) && s.pageEnd == Some(PageOfLine(items, e))
  }

  /** Some text line from a up to b is not blank. */
  ghost predicate HasText(items: seq<Item>, a: nat, b: nat)
    requires b <= |items|
  {
    exists k: nat :: a <= k < b && items[k].Body? && !IsBlank(items[k].raw)
  }

  lemma PathListed(items: seq<Item>, c: nat)
    requires c < |items| && items[c].Head?
    ensures PathIs(items, c, PathOf(items, c))
  {
    hide Ancestors;
    var at := AncestorsListed(items, c + 1, c);
    assert TitlesAt(items, at, PathOf(items, c));
    assert AncestorsAt(items, c, at);
  }

  lemma ContentListed(items: seq<Item>, a: nat, b: nat)
    requires a <= b <= |items|
    ensures ContentIs(items, a, b, Strip(JoinLines(Bodies(items, a, b))))
    ensures Strip(JoinLines(Bodies(items, a, b))) != "" <==> HasText(items, a, b)
  {
    var at := BodiesListed(items, a, b);
    var body := Bodies(items, a, b);
    assert RawAt(items, at, body) && BodiesAt(items, a, b, at);
    StripBlank(JoinLines(body));
    JoinBlank(body);
    hide Strip, IsBlank, Bodies;
    if HasText(items, a, b) {
      var k: nat :| a <= k < b && items[k].Body? && !IsBlank(items[k].raw);
      assert k in at;
      var i :| 0 <= i < |at| && at[i] == k;
      assert !IsBlank(body[i]);
    }
    if !AllBlank(body) {
      var i :| 0 <= i < |body| && !IsBlank(body[i]);
      assert at[i] in at;
    }
  }

  lemma PageListed(items: seq<Item>, n: nat)
    requires n <= |items|
    ensures PageAt(items, n) == PageOfLine(items, n)
  {
    PageAtCounts(items, n);
  }

  lemma SectionDescribed(env: Env, items: seq<Item>, c: int, e: nat)
    requires Span(items, c, e)
    ensures Describes(env, items, c, e, SectionOf(env, items, c, e))
    ensures Kept(SectionOf(env, items, c, e)) <==>
              c < 0 || items[c].heading.title == "未分章节" || HasText(items, c + 1, e)
  {
    hide Strip, JoinLines, Bodies, PathOf, PageOfLine, PageAt, ContentIs, PathIs, HasText, Join;
    if c >= 0 {
      PathListed(items, c);
      PageListed(items, c);
    }
    ContentListed(items, c + 1, e);
    PageListed(items, e);
  }

  // ---------- which sections there are ----------

  /** The section opened at c keeps its place: it is the untitled one, or has that title, or
      holds some text. */
  ghost predicate Stays(items: seq<Item>, c: int, e: nat)
    requires Span(items, c, e)
  {
    c < 0 || items[c].heading.title == "未分章节" || HasText(items, c + 1, e)
  }

  ghost predicate Rising(at: seq<int>) {
    forall j, k | 0 <= j < k < |at| :: at[j] < at[k]
  }

  /** The sections are those opened at the lines `at` and closed at the lines `end`. */
  ghost predicate SectionsAt(env: Env, items: seq<Item>, at: seq<int>, end: seq<nat>, sections: seq<Section>) {
    && |at| == |end| == |sections| && Rising(at)
    && forall k | 0 <= k < |at| :: Span(items, at[k], end[k]) && Describes(env, items, at[k], end[k], sections[k])
  }

  lemma CurrentSpan(items: seq<Item>, n: nat)
    requires n <= |items| && (n < |items| ==> items[n].Head?)
    ensures Span(items, Current(items, n), n)
  {
    CurrentIsLast(items, n);
  }

  /** A section opened before line n and closed there or before. */
  lemma SpanBefore(items: seq<Item>, c: int, e: nat, n: nat)
    requires Span(items, c, e) && n <= |items| && c < n && (n < |items| ==> items[n].Head?)
    ensures e <= n
    ensures c == Current(items, n) <==> e == n
    ensures c <= Current(items, n)
  {
    CurrentIsLast(items, n);
  }

  lemma {:induction false} ClosedListed(env: Env, items: seq<Item>, n: nat) returns (at: seq<int>, end: seq<nat>)
    requires n <= |items|
    ensures SectionsAt(env, items, at, end, Closed(env, items, n))
    ensures forall k | 0 <= k < |at| :: at[k] < Current(items, n)
    ensures forall c, e: nat | Span(items, c, e) && c < Current(items, n) :: c in at <==> Stays(items, c, e)
  {
    if n == 0 {
      return [], [];
    }
    at, end := ClosedListed(env, items, n - 1);
    if items[n - 1].Head? {
      at, end := AddClosed(env, items, n - 1, Closed(env, items, n - 1), at, end);
    }
  }

  lemma AddClosed(env: Env, items: seq<Item>, n: nat, sections: seq<Section>, before: seq<int>, ends: seq<nat>)
    returns (at: seq<int>, end: seq<nat>)
    requires n <= |items| && (n < |items| ==> items[n].Head?)
    requires SectionsAt(env, items, before, ends, sections)
    requires forall k | 0 <= k < |before| :: before[k] < Current(items, n)
    requires forall c, e: nat | Span(items, c, e) && c < Current(items, n) :: c in before <==> Stays(items, c, e)
    ensures SectionsAt(env, items, at, end, sections + Flush(env, items, n))
    ensures forall k | 0 <= k < |at| :: at[k] < n
    ensures forall c, e: nat | Span(items, c, e) && c < n :: c in at <==> Stays(items, c, e)
  {
    hide Describes, SectionOf, Kept, HasText, Current, Span;
    var c := Current(items, n);
    CurrentSpan(items, n);
    CurrentBefore(items, n);
    SectionDescribed(env, items, c, n);
    at, end := before, ends;
    if Kept(SectionOf(env, items, c, n)) {
      at, end := before + [c], ends + [n];
      assert at[|before|] == c;
    }
    forall o, e: nat | Span(items, o, e) && o < n ensures o in at <==> Stays(items, o, e) {
      SpanBefore(items, o, e, n);
    }
  }

  lemma CurrentBefore(items: seq<Item>, n: nat)
    requires n <= |items|
    ensures Current(items, n) < n
  {}

  /** The sections are exactly those that keep their place, in the order of the lines. */
  ghost predicate SectionsAre(env: Env, items: seq<Item>, sections: seq<Section>) {
    exists at, end :: SectionsAt(env, items, at, end, sections) && AllKept(items, at)
  }

  ghost predicate AllKept(items: seq<Item>, at: seq<int>) {
    forall c, e: nat | Span(items, c, e) :: c in at <==> Stays(items, c, e)
  }

  lemma SectionsListed(env: Env, items: seq<Item>)
    ensures SectionsAre(env, items, ParseItems(env, items).sections)
  {
    hide SectionsAt, Span, Stays, Closed, Flush, Entries, Warnings, PageAt;
    var n := |items|;
    var at, end := ClosedListed(env, items, n);
    at, end := AddClosed(env, items, n, Closed(env, items, n), at, end);
    forall c, e: nat | Span(items, c, e) ensures c < n {
      SpanInside(items, c, e);
    }
    assert AllKept(items, at);
  }

  lemma SpanInside(items: seq<Item>, c: int, e: nat)
    requires Span(items, c, e)
    ensures c < |items|
  {}

  // ---------- entries and warnings ----------

  ghost predicate IsEntry(items: seq<Item>, j: nat, entry: Entry)
    requires j < |items|
  {
    && items[j].Head? && entry.title == items[j].heading.title && entry.level == items[j].heading.level
    && PathIs(items, j, entry.path) && entry.pageStart == PageOfLine(items, j)
  }

  /** One entry for each heading before line n, in order. */
  ghost predicate EntriesAt(items: seq<Item>, n: nat, at: seq<nat>, entries: seq<Entry>)
    requires n <= |items|
  {
    && Ascending(at) && (forall j: nat {:trigger j in at} :: j in at <==> j < n && items[j].Head?)
    && |entries| == |at| && forall k | 0 <= k < |at| :: at[k] < n && IsEntry(items, at[k], entries[k])
  }

  lemma {:induction false} EntriesListed(items: seq<Item>, n: nat) returns (at: seq<nat>)
    requires n <= |items|
    ensures EntriesAt(items, n, at, Entries(items, n))
  {
    hide PathIs, PathOf, PageOfLine, PageAt;
    if n == 0 {
      return [];
    }
    var before := EntriesListed(items, n - 1);
    at := before;
    AscendingSnoc(before, n - 1);
    if items[n - 1].Head? {
      at := before + [n - 1];
      PathListed(items, n - 1);
      PageListed(items, n - 1);
    }
  }

  /** Heading j is more than one level below the heading right before it. */
  ghost predicate Jumps(items: seq<Item>, j: nat)
    requires j < |items|
  {
    && items[j].Head?
    && exists c: nat :: Span(items, c, j) && items[j].heading.level > items[c].heading.level + 1
  }

  ghost predicate WarningsAt(items: seq<Item>, n: nat, at: seq<nat>, warnings: seq<string>)
    requires n <= |items|
  {
    && Ascending(at) && (forall j: nat {:trigger j in at} :: j in at <==> j < n && Jumps(items, j))
    && |warnings| == |at|
    && forall k | 0 <= k < |at| ::
         at[k] < n && items[at[k]].Head? && warnings[k] == "章节跳级：" + items[at[k]].heading.title
  }

  lemma JumpsIs(items: seq<Item>, n: nat)
    requires n < |items| && items[n].Head?
    ensures Jumps(items, n) <==>
              Current(items, n) >= 0 && items[n].heading.level > LevelOf(items, Current(items, n)) + 1
  {
    CurrentSpan(items, n);
    forall c: nat | Span(items, c, n) ensures c == Current(items, n) {
      SpanBefore(items, c, n, n);
    }
  }

  lemma {:induction false} WarningsListed(items: seq<Item>, n: nat) returns (at: seq<nat>)
    requires n <= |items|
    ensures WarningsAt(items, n, at, Warnings(items, n))
  {
    if n == 0 {
      return [];
    }
    hide Jumps, Current;
    var before := WarningsListed(items, n - 1);
    at := before;
    AscendingSnoc(before, n - 1);
    if items[n - 1].Head? {
      JumpsIs(items, n - 1);
      if Jumps(items, n - 1) {
        at := before + [n - 1];
      }
    } else {
      NotHeadNoJump(items, n - 1);
    }
  }

  lemma NotHeadNoJump(items: seq<Item>, j: nat)
    requires j < |items| && !items[j].Head?
    ensures !Jumps(items, j)
  {}

  // ---------- the whole result ----------

  /** A text with nothing in it has one empty section and a warning. */
  lemma EmptyResult(env: Env, markdown: string)
    requires IsBlank(markdown)
    ensures Parse(env, markdown) ==
            ParseResult([Section("未分章节", 1, ["未分章节"], env.sha1("未分章节"), "", None, None)], [], 0,
                        ["空文档"])
  {
    StripBlank(markdown);
  }

  /** Any other text: its sections, entries, pages and warnings, line by line. */
  lemma ResultIs(env: Env, markdown: string) returns (entriesAt: seq<nat>, warningsAt: seq<nat>)
    requires !IsBlank(markdown)
    ensures var items, r := Items(env, SplitLines(markdown)), Parse(env, markdown);
            && SectionsAre(env, items, r.sections)
            && EntriesAt(items, |items|, entriesAt, r.outline)
            && WarningsAt(items, |items|, warningsAt, r.warnings)
            && r.pageCount == PageOfLine(items, |items|)
  {
    hide SectionsAre, EntriesAt, WarningsAt, PageOfLine, IsBlank, Strip, SplitLines, Closed, Flush;
    hide Entries, Warnings, PageAt;
    var items := Items(env, SplitLines(markdown));
    StripBlank(markdown);
    SectionsListed(env, items);
    entriesAt := EntriesListed(items, |items|);
    warningsAt := WarningsListed(items, |items|);
    PageListed(items, |items|);
  }
}
