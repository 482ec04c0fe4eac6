/** `parse_outline`: markdown text to sections with heading paths and page numbers. */
module Outline {
  import opened Wrappers
  import opened Text

  const PAGE_SPLIT := "<--- Page Split --->"
  const UNTITLED := "未分章节"
  const EMPTY_DOCUMENT := "空文档"
  const LEVEL_JUMP := "章节跳级："

  datatype Heading = Heading(level: nat, title: string)

  /** The two computations left abstract: the three heading patterns, tried on a stripped
      non-empty line, and the digest behind a section id. */
  datatype Env = Env(pattern: string -> Option<Heading>, sha1: string -> string)

  datatype Section = Section(title: string, level: nat, path: seq<string>, id: string,
                             content: string, pageStart: Option<nat>, pageEnd: Option<nat>)
  datatype Entry = Entry(title: string, level: nat, path: seq<string>, pageStart: nat)
  datatype ParseResult = ParseResult(sections: seq<Section>, outline: seq<Entry>,
                                     pageCount: nat, warnings: seq<string>)

  /** What one raw line is to the parser. */
  datatype Item = PageBreak | Head(heading: Heading) | Body(raw: string)

  function DetectHeading(env: Env, line: string): Option<Heading> {
    if line == "" then None else env.pattern(line)
  }

  function Classify(env: Env, raw: string): Item {
    var line := Strip(raw);
    if line == PAGE_SPLIT then PageBreak
    else match DetectHeading(env, line)
      case Some(h) => Head(h)
      case None => Body(raw)
  }

  function Items(env: Env, lines: seq<string>): (items: seq<Item>)
    ensures |items| == |lines|
  {
    seq(|lines|, i requires 0 <= i < |lines| => Classify(env, lines[i]))
  }

  // ---------- what the outline of a list of lines is ----------

  /** The heading at j encloses the heading at i: every heading after j up to i is deeper. */
  predicate IsAncestor(items: seq<Item>, j: nat, i: nat)
    requires j <= i < |items|
  {
    && items[j].Head? && items[i].Head?
    && forall k | j < k <= i && items[k].Head? :: items[j].heading.level < items[k].heading.level
  }

  /** A heading and the line it stands on. */
  datatype Placed = Placed(at: nat, heading: Heading)

  /** The headings before line n that enclose heading i, outermost first. */
  function Ancestors(items: seq<Item>, n: nat, i: nat): seq<Placed>
    requires n <= i + 1 && i < |items|
  {
    if n == 0 then []
    else Ancestors(items, n - 1, i) +
         (if IsAncestor(items, n - 1, i) then [Placed(n - 1, items[n - 1].heading)] else [])
  }

  function Titles(chain: seq<Placed>): seq<string> {
    seq(|chain|, k requires 0 <= k < |chain| => chain[k].heading.title)
  }

  function Levels(chain: seq<Placed>): seq<nat> {
    seq(|chain|, k requires 0 <= k < |chain| => chain[k].heading.level)
  }

  /** Page number in force just before line n. */
  function PageAt(items: seq<Item>, n: nat): (p: nat)
    requires n <= |items|
    ensures p >= 1
  {
    if n == 0 then 1 else PageAt(items, n - 1) + (if items[n - 1].PageBreak? then 1 else 0)
  }

  /** The last heading before line n, or -1 for the untitled opening section. */
  function Current(items: seq<Item>, n: nat): (c: int)
    requires n <= |items|
    ensures -1 <= c < n
    ensures c >= 0 ==> items[c].Head?
  {
    if n == 0 then -1 else if items[n - 1].Head? then n - 1 else Current(items, n - 1)
  }

  /** The text lines among the lines a..b. */
  function Bodies(items: seq<Item>, a: nat, b: nat): seq<string>
    requires a <= b <= |items|
    decreases b
  {
    if a == b then []
    else Bodies(items, a, b - 1) + (if items[b - 1].Body? then [items[b - 1].raw] else [])
  }

  /** The titles on the way from the outermost enclosing heading down to heading i itself. */
  function PathOf(items: seq<Item>, i: nat): seq<string>
    requires i < |items|
  {
    Titles(Ancestors(items, i + 1, i))
  }

  function TitleOf(items: seq<Item>, c: int): string
    requires -1 <= c < |items| && (c >= 0 ==> items[c].Head?)
  {
    if c < 0 then UNTITLED else items[c].heading.title
  }

  function LevelOf(items: seq<Item>, c: int): nat
    requires -1 <= c < |items| && (c >= 0 ==> items[c].Head?)
  {
    if c < 0 then 1 else items[c].heading.level
  }

  function SectionPathOf(items: seq<Item>, c: int): seq<string>
    requires -1 <= c < |items| && (c >= 0 ==> items[c].Head?)
  {
    if c < 0 then [UNTITLED] else PathOf(items, c)
  }

  function StartOf(items: seq<Item>, c: int): nat
    requires -1 <= c < |items|
  {
    if c < 0 then 1 else PageAt(items, c)
  }

  function SectionId(env: Env, path: seq<string>): string {
    env.sha1(Join(path, " / "))
  }

  /** The section opened at heading c (or at the start) and running up to line e. */
  function SectionOf(env: Env, items: seq<Item>, c: int, e: nat): Section
    requires -1 <= c < e <= |items| || (c == -1 && e == 0)
    requires c >= 0 ==> items[c].Head?
  {
    Section(TitleOf(items, c), LevelOf(items, c), SectionPathOf(items, c),
            SectionId(env, SectionPathOf(items, c)),
            Strip(JoinLines(Bodies(items, c + 1, e))),
            Some(StartOf(items, c)), Some(PageAt(items, e)))
  }

  /** A heading without text leaves no section behind, unless it carries the default title. */
  predicate Kept(s: Section) {
    s.content != "" || s.title == UNTITLED
  }

  function Flush(env: Env, items: seq<Item>, n: nat): seq<Section>
    requires n <= |items|
  {
    var s := SectionOf(env, items, Current(items, n), n);
    if Kept(s) then [s] else []
  }

  /** The sections closed before line n: one for each heading before n, ended there. */
  function Closed(env: Env, items: seq<Item>, n: nat): seq<Section>
    requires n <= |items|
  {
    if n == 0 then []
    else Closed(env, items, n - 1) + (if items[n - 1].Head? then Flush(env, items, n - 1) else [])
  }

  function Entries(items: seq<Item>, n: nat): seq<Entry>
    requires n <= |items|
  {
    if n == 0 then []
    else Entries(items, n - 1) +
         (if items[n - 1].Head?
          then [Entry(items[n - 1].heading.title, items[n - 1].heading.level,
                      PathOf(items, n - 1), PageAt(items, n - 1))]
          else [])
  }

  /** A heading jumps when it is at least two levels below the heading before it. */
  function Warnings(items: seq<Item>, n: nat): seq<string>
    requires n <= |items|
  {
    if n == 0 then []
    else Warnings(items, n - 1) +
         (if items[n - 1].Head? && Current(items, n - 1) >= 0 &&
             items[n - 1].heading.level > LevelOf(items, Current(items, n - 1)) + 1
          then [LEVEL_JUMP + items[n - 1].heading.title]
          else [])
  }

  /** The whole result, position by position and without any stack. */
  function Parse(env: Env, markdown: string): ParseResult {
    if Strip(markdown) == "" then
      ParseResult([Section(UNTITLED, 1, [UNTITLED], SectionId(env, [UNTITLED]), "", None, None)],
                  [], 0, [EMPTY_DOCUMENT])
    else
      ParseItems(env, Items(env, SplitLines(markdown)))
  }

  function ParseItems(env: Env, items: seq<Item>): ParseResult {
    var n := |items|;
    ParseResult(Closed(env, items, n) + Flush(env, items, n), Entries(items, n),
                PageAt(items, n), Warnings(items, n))
  }

  // ---------- the stack discipline computes the ancestor chain ----------

  predicate Increasing(levels: seq<nat>) {
    forall a, b | 0 <= a < b < |levels| :: levels[a] < levels[b]
  }

  lemma {:induction false} AncestorsAreOrdered(items: seq<Item>, n: nat, i: nat)
    requires n <= i + 1 && i < |items|
    ensures forall k | 0 <= k < |Ancestors(items, n, i)| ::
              var p := Ancestors(items, n, i)[k];
              p.at < n && IsAncestor(items, p.at, i) && p.heading == items[p.at].heading
    ensures forall a, b | 0 <= a < b < |Ancestors(items, n, i)| ::
              Ancestors(items, n, i)[a].at < Ancestors(items, n, i)[b].at
  {
    if n > 0 {
      AncestorsAreOrdered(items, n - 1, i);
    }
  }

  lemma AncestorLevelsIncrease(items: seq<Item>, n: nat, i: nat)
    requires n <= i + 1 && i < |items|
    ensures Increasing(Levels(Ancestors(items, n, i)))
  {
    AncestorsAreOrdered(items, n, i);
    var chain := Ancestors(items, n, i);
    forall a, b | 0 <= a < b < |chain|
      ensures Levels(chain)[a] < Levels(chain)[b]
    {
      assert IsAncestor(items, chain[a].at, i) && chain[a].at < chain[b].at <= i;
    }
  }

  /** How many stack entries survive popping everything at or below a level. */
  function PopTo(levels: seq<nat>, level: nat): (k: nat)
    ensures k <= |levels|
  {
    if levels == [] || levels[|levels| - 1] < level then |levels|
    else PopTo(levels[..|levels| - 1], level)
  }

  /** Enclosing the next heading i means enclosing the current heading c and being higher. */
  lemma AncestorStep(items: seq<Item>, j: nat, c: nat, i: nat)
    requires j <= c < i < |items|
    requires items[c].Head? && items[i].Head?
    requires forall k | c < k < i :: !items[k].Head?
    ensures IsAncestor(items, j, i) <==>
            IsAncestor(items, j, c) && items[j].heading.level < items[i].heading.level
  {}

  lemma PopToSnoc(levels: seq<nat>, x: nat, level: nat)
    requires Increasing(levels + [x])
    ensures PopTo(levels + [x], level) == if x < level then |levels| + 1 else PopTo(levels, level)
    ensures x < level ==> PopTo(levels, level) == |levels|
  {
    var all := levels + [x];
    assert all[..|all| - 1] == levels && all[|all| - 1] == x;
    assert levels != [] ==> levels[|levels| - 1] == all[|levels| - 1] < all[|levels|];
  }

  /** Popping the stack of heading c leaves the proper ancestors of the next heading i. */
  lemma {:induction false} PopGivesAncestors(items: seq<Item>, n: nat, c: nat, i: nat)
    requires n <= c + 1 && c < i < |items|
    requires items[c].Head? && items[i].Head?
    requires forall k | c < k < i :: !items[k].Head?
    ensures Ancestors(items, n, i) ==
            Ancestors(items, n, c)[..PopTo(Levels(Ancestors(items, n, c)), items[i].heading.level)]
  {
    if n > 0 {
      PopGivesAncestors(items, n - 1, c, i);
      AncestorStep(items, n - 1, c, i);
      var before := Ancestors(items, n - 1, c);
      if IsAncestor(items, n - 1, c) {
        var p := Placed(n - 1, items[n - 1].heading);
        assert Ancestors(items, n, c) == before + [p];
        AncestorLevelsIncrease(items, n, c);
        PopSnoc(before, p, items[i].heading.level);
      } else {
        assert Ancestors(items, n, c) == before;
        assert Ancestors(items, n, i) == Ancestors(items, n - 1, i);
      }
    }
  }

  lemma PopSnoc(before: seq<Placed>, p: Placed, level: nat)
    requires Increasing(Levels(before + [p]))
    ensures (before + [p])[..PopTo(Levels(before + [p]), level)] ==
            before[..PopTo(Levels(before), level)] + (if p.heading.level < level then [p] else [])
  {
    var levels := Levels(before);
    assert Levels(before + [p]) == levels + [p.heading.level];
    PopToSnoc(levels, p.heading.level, level);
    if p.heading.level < level {
      assert before[..|before|] == before && (before + [p])[..|before| + 1] == before + [p];
    }
  }

  lemma {:induction false} NoAncestorBetween(items: seq<Item>, m: nat, n: nat, i: nat)
    requires m <= n <= i < |items|
    requires forall k | m <= k < n :: !items[k].Head?
    ensures Ancestors(items, n, i) == Ancestors(items, m, i)
  {
    if m < n {
      NoAncestorBetween(items, m, n - 1, i);
    }
  }

  lemma {:induction false} CurrentIsLast(items: seq<Item>, n: nat)
    requires n <= |items|
    ensures forall k | Current(items, n) < k < n :: !items[k].Head?
  {
    if n > 0 && !items[n - 1].Head? {
      CurrentIsLast(items, n - 1);
    }
  }

  /** The stacks as the parser keeps them just before line n. */
  function PathStack(items: seq<Item>, n: nat): seq<string>
    requires n <= |items|
  {
    var c := Current(items, n);
    if c < 0 then [] else PathOf(items, c)
  }

  function LevelStack(items: seq<Item>, n: nat): seq<nat>
    requires n <= |items|
  {
    var c := Current(items, n);
    if c < 0 then []
    else Levels(Ancestors(items, c + 1, c))
  }

  /** Pop, then push: exactly the step from one heading's stack to the next one's. */
  lemma StackStep(items: seq<Item>, n: nat)
    requires n < |items| && items[n].Head?
    ensures |PathStack(items, n)| == |LevelStack(items, n)|
    ensures var k := PopTo(LevelStack(items, n), items[n].heading.level);
            && LevelStack(items, n + 1) == LevelStack(items, n)[..k] + [items[n].heading.level]
            && PathStack(items, n + 1) == PathStack(items, n)[..k] + [items[n].heading.title]
  {
    var c, h := Current(items, n), items[n].heading;
    CurrentIsLast(items, n);
    var chain := Ancestors(items, n, n);
    assert IsAncestor(items, n, n);
    assert Ancestors(items, n + 1, n) == chain + [Placed(n, h)];
    NoAncestorBetween(items, c + 1, n, n);
    if c < 0 {
      assert chain == [];
    } else {
      PopGivesAncestors(items, c + 1, c, n);
      var prev := Ancestors(items, c + 1, c);
      var k := PopTo(Levels(prev), h.level);
      assert Levels(chain + [Placed(n, h)]) == Levels(prev)[..k] + [h.level];
      assert Titles(chain + [Placed(n, h)]) == Titles(prev)[..k] + [h.title];
    }
  }

  // ---------- blank lines carried over an empty section ----------

  predicate AllBlank(lines: seq<string>) {
    forall i | 0 <= i < |lines| :: IsBlank(lines[i])
  }

  lemma {:induction false} JoinBlank(lines: seq<string>)
    ensures AllBlank(lines) <==> IsBlank(JoinLines(lines))
  {
    if |lines| > 1 {
      JoinBlank(lines[1..]);
      var s := JoinLines(lines);
      var r := JoinLines(lines[1..]);
      assert s == lines[0] + "\n" + r;
      if IsBlank(s) {
        assert forall i | 0 <= i < |lines[0]| :: lines[0][i] == s[i];
        assert forall i | 0 <= i < |r| :: r[i] == s[|lines[0]| + 1 + i];
        assert forall i | 1 <= i < |lines| :: lines[i] == lines[1..][i - 1];
      }
    }
  }

  lemma CarryIsInvisible(carry: seq<string>, body: seq<string>)
    requires AllBlank(carry)
    ensures Strip(JoinLines(carry + body)) == Strip(JoinLines(body))
  {
    JoinBlank(carry);
    if carry == [] {
      assert carry + body == body;
    } else if body == [] {
      assert carry + body == carry;
      StripBlank(JoinLines(carry));
    } else {
      JoinAppend(carry, body, "\n");
      LStripBlankPrefix(JoinLines(carry) + "\n", JoinLines(body));
    }
  }

  // ---------- the parser ----------

  /** The local variables of the parser. */
  datatype Locals = Locals(pageNo: nat, title: string, level: nat, path: seq<string>, startPage: nat,
                           pathStack: seq<string>, levelStack: seq<nat>)

  ghost function LocalsAt(items: seq<Item>, n: nat): Locals
    requires n <= |items|
  {
    var c := Current(items, n);
    Locals(PageAt(items, n), TitleOf(items, c), LevelOf(items, c), SectionPathOf(items, c),
           StartOf(items, c), PathStack(items, n), LevelStack(items, n))
  }

  /** What the parser has collected just before line n. */
  ghost predicate Collected(env: Env, items: seq<Item>, n: nat, pending: seq<string>, carry: seq<string>,
                            sections: seq<Section>, outline: seq<Entry>, warnings: seq<string>)
    requires n <= |items|
  {
    && pending == carry + Bodies(items, Current(items, n) + 1, n) && AllBlank(carry)
    && sections == Closed(env, items, n)
    && (sections != [] <==> Current(items, n) >= 0)
    && outline == Entries(items, n) && warnings == Warnings(items, n)
  }

  lemma CollectStart(env: Env, items: seq<Item>)
    ensures Collected(env, items, 0, [], [], [], [], [])
    ensures LocalsAt(items, 0) == Locals(1, UNTITLED, 1, [UNTITLED], 1, [], [])
  {}

  lemma CollectBreak(env: Env, items: seq<Item>, n: nat, pending: seq<string>, carry: seq<string>,
                     sections: seq<Section>, outline: seq<Entry>, warnings: seq<string>)
    requires n < |items| && items[n].PageBreak?
    requires Collected(env, items, n, pending, carry, sections, outline, warnings)
    ensures LocalsAt(items, n + 1) == LocalsAt(items, n).(pageNo := LocalsAt(items, n).pageNo + 1)
    ensures Collected(env, items, n + 1, pending, carry, sections, outline, warnings)
  {
    hide PathOf, SectionOf, Flush, Levels, Ancestors, IsAncestor, AllBlank, SectionPathOf;
    assert Current(items, n + 1) == Current(items, n);
  }

  lemma CollectBody(env: Env, items: seq<Item>, n: nat, pending: seq<string>, carry: seq<string>,
                    sections: seq<Section>, outline: seq<Entry>, warnings: seq<string>)
    requires n < |items| && items[n].Body?
    requires Collected(env, items, n, pending, carry, sections, outline, warnings)
    ensures LocalsAt(items, n + 1) == LocalsAt(items, n)
    ensures Collected(env, items, n + 1, pending + [items[n].raw], carry, sections, outline, warnings)
  {
    hide PathOf, SectionOf, Flush, Levels, Ancestors, IsAncestor, AllBlank, SectionPathOf;
    assert Current(items, n + 1) == Current(items, n);
  }

  /** The line loop with its two stacks, its pending lines and its early-returning flush. */
  method ParseOutline(env: Env, markdown: string) returns (result: ParseResult)
    ensures result == Parse(env, markdown)
  {
    var text := Strip(markdown);
    if text == "" {
      var id := SectionId(env, [UNTITLED]);
      return ParseResult([Section(UNTITLED, 1, [UNTITLED], id, "", None, None)], [], 0, [EMPTY_DOCUMENT]);
    }
    hide Collected, LocalsAt, FlushOutcome, ParseItems;
    var lines := SplitLines(markdown);
    ghost var items := Items(env, lines);
    var now := Locals(1, UNTITLED, 1, [UNTITLED], 1, [], []);
    var pending: seq<string>, warnings: seq<string> := [], [];
    var sections: seq<Section>, outline: seq<Entry> := [], [];
    ghost var carry: seq<string> := [];
    CollectStart(env, items);
    for n := 0 to |lines|
      invariant now == LocalsAt(items, n)
      invariant Collected(env, items, n, pending, carry, sections, outline, warnings)
    {
      assert items[n] == Classify(env, lines[n]);
      var line := Strip(lines[n]);
      if line == PAGE_SPLIT {
        CollectBreak(env, items, n, pending, carry, sections, outline, warnings);
        now := now.(pageNo := now.pageNo + 1);
        continue;
      }
      var heading := DetectHeading(env, line);
      if heading.None? {
        CollectBody(env, items, n, pending, carry, sections, outline, warnings);
        pending := pending + [lines[n]];
        continue;
      }
      pending, sections, outline, warnings, now :=
        StartHeading(env, now, heading.value, pending, sections, outline, warnings, items, n, carry);
      carry := pending;
    }
    ghost var closed, open := sections, pending;
    sections, pending := FlushPending(env, now, pending, sections);
    LastFlush(env, items, now, open, carry, closed, outline, warnings, sections, pending);
    if sections == [] {
      assert false;  // the opening section is always appended, so the source's fallback is dead
    }
    result := ParseResult(sections, outline, now.pageNo, warnings);
  }

  lemma LastFlush(env: Env, items: seq<Item>, now: Locals, pending: seq<string>, carry: seq<string>,
                  sections: seq<Section>, outline: seq<Entry>, warnings: seq<string>,
                  sections': seq<Section>, pending': seq<string>)
    requires Collected(env, items, |items|, pending, carry, sections, outline, warnings)
    requires now == LocalsAt(items, |items|)
    requires FlushOutcome(env, now, pending, sections, sections', pending')
    ensures ParseResult(sections', outline, now.pageNo, warnings) == ParseItems(env, items)
    ensures sections' != []
  {
    hide FlushOutcome, AllBlank, Flush, Closed, Entries, Warnings, PageAt, Bodies,
         PathOf, SectionPathOf, LevelStack, PathStack;
    CloseSection(env, items, |items|, now, pending, carry, sections, sections', pending');
  }

  /** One flush appends exactly the section that ends at line n. */
  lemma CloseSection(env: Env, items: seq<Item>, n: nat, now: Locals,
                     pending: seq<string>, carry: seq<string>, sections: seq<Section>,
                     sections': seq<Section>, pending': seq<string>)
    requires n <= |items| && now == LocalsAt(items, n)
    requires pending == carry + Bodies(items, Current(items, n) + 1, n) && AllBlank(carry)
    requires FlushOutcome(env, now, pending, sections, sections', pending')
    ensures sections' == sections + Flush(env, items, n)
    ensures AllBlank(pending')
    ensures Current(items, n) < 0 ==> sections' != []
  {
    hide Strip, IsBlank, IsAncestor;
    CarryIsInvisible(carry, Bodies(items, Current(items, n) + 1, n));
  }

  lemma CollectHead(env: Env, items: seq<Item>, n: nat, now: Locals, now': Locals, pending: seq<string>,
                    carry: seq<string>,
                    sections: seq<Section>, outline: seq<Entry>, warnings: seq<string>,
                    sections': seq<Section>, pending': seq<string>)
    requires n < |items| && items[n].Head?
    requires now == LocalsAt(items, n) && now' == LocalsAt(items, n + 1)
    requires Collected(env, items, n, pending, carry, sections, outline, warnings)
    requires FlushOutcome(env, now, pending, sections, sections', pending')
    ensures var h := items[n].heading;
            Collected(env, items, n + 1, pending', pending', sections',
                      outline + [Entry(h.title, h.level, now'.pathStack, now'.pageNo)],
                      warnings + if h.level > now.level + 1 && sections != [] then [LEVEL_JUMP + h.title] else [])
  {
    hide FlushOutcome, AllBlank, Flush, PathOf, SectionOf, LevelStack, SectionId;
    CloseSection(env, items, n, now, pending, carry, sections, sections', pending');
    assert Current(items, n + 1) == n;
    assert pending' == pending' + Bodies(items, n + 1, n + 1);
  }

  /** The part of the loop body that deals with a heading line. */
  method StartHeading(env: Env, now: Locals, h: Heading, pending: seq<string>, sections: seq<Section>,
                      outline: seq<Entry>, warnings: seq<string>,
                      ghost items: seq<Item>, ghost n: nat, ghost carry: seq<string>)
    returns (pending': seq<string>, sections': seq<Section>, outline': seq<Entry>,
             warnings': seq<string>, now': Locals)
    requires n < |items| && items[n] == Head(h) && now == LocalsAt(items, n)
    requires Collected(env, items, n, pending, carry, sections, outline, warnings)
    ensures Collected(env, items, n + 1, pending', pending', sections', outline', warnings')
    ensures now' == LocalsAt(items, n + 1)
  {
    hide Collected, LocalsAt, FlushOutcome;
    warnings' := warnings;
    if h.level > now.level + 1 && sections != [] {
      warnings' := warnings' + [LEVEL_JUMP + h.title];
    }
    sections', pending' := FlushPending(env, now, pending, sections);
    now' := OpenSection(now, h, items, n);
    outline' := outline + [Entry(h.title, h.level, now'.pathStack, now'.pageNo)];
    CollectHead(env, items, n, now, now', pending, carry, sections, outline, warnings, sections', pending');
    assert warnings' == warnings + if h.level > now.level + 1 && sections != [] then [LEVEL_JUMP + h.title] else [];
  }

  /** Pops the two stacks down to the enclosing headings and pushes the new heading. */
  method OpenSection(now: Locals, h: Heading, ghost items: seq<Item>, ghost n: nat) returns (next: Locals)
    requires n < |items| && items[n] == Head(h) && now == LocalsAt(items, n)
    ensures next == LocalsAt(items, n + 1)
  {
    var levelStack, pathStack := now.levelStack, now.pathStack;
    StackStep(items, n);
    while levelStack != [] && levelStack[|levelStack| - 1] >= h.level
      invariant |levelStack| <= |now.levelStack| == |now.pathStack|
      invariant levelStack == now.levelStack[..|levelStack|] && pathStack == now.pathStack[..|levelStack|]
      invariant PopTo(levelStack, h.level) == PopTo(now.levelStack, h.level)
    {
      levelStack, pathStack := levelStack[..|levelStack| - 1], pathStack[..|pathStack| - 1];
    }
    levelStack, pathStack := levelStack + [h.level], pathStack + [h.title];
    next := Locals(now.pageNo, h.title, h.level, pathStack, now.pageNo, pathStack, levelStack);
  }

  ghost predicate FlushOutcome(env: Env, now: Locals, pending: seq<string>, sections: seq<Section>,
                               sections': seq<Section>, pending': seq<string>)
  {
    var content := Strip(JoinLines(pending));
    if content == "" && now.title != UNTITLED then
      sections' == sections && pending' == pending && AllBlank(pending)
    else
      && sections' == sections + [Section(now.title, now.level, now.path, SectionId(env, now.path),
                                          content, Some(now.startPage), Some(now.pageNo))]
      && pending' == []
  }

  /** `flush`: an empty section is skipped without clearing the pending lines. */
  method FlushPending(env: Env, now: Locals, pending: seq<string>, sections: seq<Section>)
    returns (sections': seq<Section>, pending': seq<string>)
    ensures FlushOutcome(env, now, pending, sections, sections', pending')
  {
    var content := Strip(JoinLines(pending));
    if content == "" && now.title != UNTITLED {
      StripBlank(JoinLines(pending));
      JoinBlank(pending);
      return sections, pending;
    }
    var id := SectionId(env, now.path);
    sections' := sections + [Section(now.title, now.level, now.path, id, content,
                                     Some(now.startPage), Some(now.pageNo))];
    pending' := [];
  }

  // ---------- what holds of every outline ----------

  predicate Lists(chain: seq<Placed>, j: nat) {
    exists k | 0 <= k < |chain| :: chain[k].at == j
  }

  /** The path of heading i names exactly the headings that enclose it, outermost first. */
  lemma PathIsAncestorChain(items: seq<Item>, i: nat)
    requires i < |items| && items[i].Head?
    ensures var chain := Ancestors(items, i + 1, i);
            && (forall j: nat | j <= i :: IsAncestor(items, j, i) <==> Lists(chain, j))
            && (forall a, b | 0 <= a < b < |chain| :: chain[a].at < chain[b].at)
            && |PathOf(items, i)| == |chain|
            && (forall k | 0 <= k < |chain| :: chain[k].at <= i && items[chain[k].at].Head? &&
                                               PathOf(items, i)[k] == items[chain[k].at].heading.title)
  {
    var chain := Ancestors(items, i + 1, i);
    AncestorsAreOrdered(items, i + 1, i);
    forall j: nat | j <= i
      ensures IsAncestor(items, j, i) <==> Lists(chain, j)
    {
      if IsAncestor(items, j, i) {
        AncestorIsListed(items, i + 1, i, j);
      }
    }
    forall k | 0 <= k < |chain|
      ensures IsAncestor(items, chain[k].at, i) && PathOf(items, i)[k] == items[chain[k].at].heading.title
    {
      assert chain[k].heading == items[chain[k].at].heading;
    }
  }

  lemma {:induction false} AncestorIsListed(items: seq<Item>, n: nat, i: nat, j: nat)
    requires j < n <= i + 1 && i < |items| && IsAncestor(items, j, i)
    ensures Lists(Ancestors(items, n, i), j)
  {
    if j < n - 1 {
      AncestorIsListed(items, n - 1, i, j);
      var k :| 0 <= k < |Ancestors(items, n - 1, i)| && Ancestors(items, n - 1, i)[k].at == j;
      assert Ancestors(items, n, i)[k].at == j;
    } else {
      assert Ancestors(items, n, i)[|Ancestors(items, n - 1, i)|].at == j;
    }
  }

  /** The two stacks stay equally long and the levels on them strictly increase. */
  lemma StacksAgree(items: seq<Item>, n: nat)
    requires n <= |items|
    ensures |PathStack(items, n)| == |LevelStack(items, n)|
    ensures Increasing(LevelStack(items, n))
  {
    hide IsAncestor, Increasing, Ancestors;
    var c := Current(items, n);
    if c >= 0 {
      AncestorLevelsIncrease(items, c + 1, c);
    } else {
      NoLevels();
    }
  }

  lemma NoLevels()
    ensures Increasing([])
  {}

  function ContentLines(sections: seq<Section>): seq<string> {
    if sections == [] then []
    else ContentLines(sections[..|sections| - 1]) + TrimmedText(sections[|sections| - 1].content)
  }

  lemma ContentLinesSnoc(sections: seq<Section>, s: Section)
    ensures ContentLines(sections + [s]) == ContentLines(sections) + TrimmedText(s.content)
  {
    assert (sections + [s])[..|sections|] == sections;
  }

  predicate LinesIn(items: seq<Item>) {
    forall i | 0 <= i < |items| && items[i].Body? :: IsLine(items[i].raw)
  }

  lemma {:induction false} BodiesAreLines(items: seq<Item>, a: nat, b: nat)
    requires a <= b <= |items| && LinesIn(items)
    ensures AreLines(Bodies(items, a, b))
    decreases b
  {
    if a < b {
      BodiesAreLines(items, a, b - 1);
    }
  }

  lemma {:induction false} BodiesSplit(items: seq<Item>, a: nat, m: nat, b: nat)
    requires a <= m <= b <= |items|
    ensures Bodies(items, a, b) == Bodies(items, a, m) + Bodies(items, m, b)
    decreases b
  {
    if m < b {
      BodiesSplit(items, a, m, b - 1);
    }
  }

  lemma ContentIsBody(body: seq<string>)
    requires AreLines(body)
    ensures TrimmedText(Strip(JoinLines(body))) == Trimmed(body)
  {
    TrimmedJoin(body);
    TrimmedStrip(JoinLines(body));
  }

  /** Whether or not a section is kept, no text of it is lost. */
  lemma FlushConserves(env: Env, items: seq<Item>, n: nat)
    requires n <= |items| && LinesIn(items)
    ensures ContentLines(Flush(env, items, n)) == Trimmed(Bodies(items, Current(items, n) + 1, n))
  {
    hide LinesIn, AreLines, ContentLines, Kept, SectionOf;
    var s := SectionOf(env, items, Current(items, n), n);
    SectionHoldsBody(env, items, n);
    NoContent();
    ContentLinesSnoc([], s);
    assert [] + [s] == [s];
    if !Kept(s) {
      DroppedIsEmpty(s);
    }
  }

  lemma DroppedIsEmpty(s: Section)
    requires !Kept(s)
    ensures TrimmedText(s.content) == []
  {}

  lemma SectionHoldsBody(env: Env, items: seq<Item>, n: nat)
    requires n <= |items| && LinesIn(items)
    ensures TrimmedText(SectionOf(env, items, Current(items, n), n).content)
         == Trimmed(Bodies(items, Current(items, n) + 1, n))
  {
    hide TrimmedText, Trimmed, Strip, JoinLines, Bodies, SectionPathOf, PageAt, AreLines, LinesIn;
    BodiesAreLines(items, Current(items, n) + 1, n);
    ContentIsBody(Bodies(items, Current(items, n) + 1, n));
  }

  lemma {:induction false} ContentLinesAppend(a: seq<Section>, b: seq<Section>)
    ensures ContentLines(a + b) == ContentLines(a) + ContentLines(b)
  {
    if b == [] {
      assert a + b == a;
    } else {
      hide ContentLines, TrimmedText;
      var init, s := b[..|b| - 1], b[|b| - 1];
      ContentLinesAppend(a, init);
      assert b == init + [s];
      Assoc(a, init, [s]);
      ContentLinesSnoc(a + init, s);
      ContentLinesSnoc(init, s);
      Assoc(ContentLines(a), ContentLines(init), TrimmedText(s.content));
    }
  }

  lemma {:induction false} ClosedConserves(env: Env, items: seq<Item>, n: nat)
    requires n <= |items| && LinesIn(items)
    ensures ContentLines(Closed(env, items, n)) + Trimmed(Bodies(items, Current(items, n) + 1, n))
         == Trimmed(Bodies(items, 0, n))
  {
    hide Flush, Trimmed, LinesIn, ContentLines;
    if n == 0 {
      NothingTrimmed();
      NoContent();
    } else if items[n - 1].Head? {
      ClosedConserves(env, items, n - 1);
      FlushConserves(env, items, n - 1);
      ContentLinesAppend(Closed(env, items, n - 1), Flush(env, items, n - 1));
      NothingTrimmed();
      assert Current(items, n) == n - 1 && Bodies(items, n, n) == [];
      assert Bodies(items, 0, n) == Bodies(items, 0, n - 1);
      assert Closed(env, items, n) == Closed(env, items, n - 1) + Flush(env, items, n - 1);
      assert ContentLines(Closed(env, items, n)) + [] == ContentLines(Closed(env, items, n));
    } else {
      ClosedConserves(env, items, n - 1);
      ClosedConservesStep(env, items, n);
    }
  }

  lemma ClosedConservesStep(env: Env, items: seq<Item>, n: nat)
    requires 0 < n <= |items| && !items[n - 1].Head?
    requires ContentLines(Closed(env, items, n - 1)) + Trimmed(Bodies(items, Current(items, n - 1) + 1, n - 1))
          == Trimmed(Bodies(items, 0, n - 1))
    ensures ContentLines(Closed(env, items, n)) + Trimmed(Bodies(items, Current(items, n) + 1, n))
         == Trimmed(Bodies(items, 0, n))
  {
    hide Flush, Trimmed, ContentLines;
    var c := Current(items, n - 1);
    var last := if items[n - 1].Body? then [items[n - 1].raw] else [];
    var text, open := ContentLines(Closed(env, items, n - 1)), Bodies(items, c + 1, n - 1);
    assert Closed(env, items, n) == Closed(env, items, n - 1);
    assert Bodies(items, c + 1, n) == open + last;
    assert Bodies(items, 0, n) == Bodies(items, 0, n - 1) + last;
    TrimmedAppend(open, last);
    TrimmedAppend(Bodies(items, 0, n - 1), last);
    Assoc(text, Trimmed(open), Trimmed(last));
  }

  lemma NoContent()
    ensures ContentLines([]) == []
  {}

  lemma NothingTrimmed()
    ensures Trimmed([]) == []
  {}

  /** Conservation: the sections hold, in order, every non-blank line of the text that is
      neither a heading nor a page split, and nothing else. */
  lemma ParseConservesText(env: Env, markdown: string)
    requires Strip(markdown) != ""
    ensures var items := Items(env, SplitLines(markdown));
            ContentLines(Parse(env, markdown).sections) == Trimmed(Bodies(items, 0, |items|))
  {
    hide Trimmed, Items, Strip, SplitLines, LinesIn, ParseItems;
    SplitLinesAreLines(markdown);
    ItemsHoldLines(env, SplitLines(markdown));
    ItemsConserveText(env, Items(env, SplitLines(markdown)));
  }

  lemma ItemsHoldLines(env: Env, lines: seq<string>)
    requires AreLines(lines)
    ensures LinesIn(Items(env, lines))
  {
    hide Strip;
    var items := Items(env, lines);
    assert forall i | 0 <= i < |items| && items[i].Body? :: items[i].raw == lines[i];
  }

  lemma ItemsConserveText(env: Env, items: seq<Item>)
    requires LinesIn(items)
    ensures ContentLines(ParseItems(env, items).sections) == Trimmed(Bodies(items, 0, |items|))
  {
    hide Trimmed, Flush, Bodies, Closed, LinesIn, ContentLines, PageAt, Entries, Warnings;
    ClosedConserves(env, items, |items|);
    FlushConserves(env, items, |items|);
    ContentLinesAppend(Closed(env, items, |items|), Flush(env, items, |items|));
  }

  lemma {:induction false} PageAtGrows(items: seq<Item>, a: nat, b: nat)
    requires a <= b <= |items|
    ensures PageAt(items, a) <= PageAt(items, b)
  {
    if a < b {
      PageAtGrows(items, a, b - 1);
    }
  }

  function PageBreaks(items: seq<Item>): nat {
    |set i | 0 <= i < |items| && items[i].PageBreak?|
  }

  lemma {:induction false} PageAtCounts(items: seq<Item>, n: nat)
    requires n <= |items|
    ensures PageAt(items, n) == 1 + |set i | 0 <= i < n && items[i].PageBreak?|
  {
    if n > 0 {
      PageAtCounts(items, n - 1);
      var before := set i | 0 <= i < n - 1 && items[i].PageBreak?;
      var all := set i | 0 <= i < n && items[i].PageBreak?;
      if items[n - 1].PageBreak? {
        assert all == before + {n - 1};
      } else {
        assert all == before;
      }
    }
  }

  /** Every section covers a run of pages and the runs follow one another up to page `last`. */
  predicate PagesInOrder(sections: seq<Section>, last: nat) {
    && (forall k | 0 <= k < |sections| ::
          && sections[k].pageStart.Some? && sections[k].pageEnd.Some?
          && 1 <= sections[k].pageStart.value <= sections[k].pageEnd.value <= last)
    && (forall j, k | 0 <= j < k < |sections| ::
          sections[j].pageEnd.value <= sections[k].pageStart.value)
  }

  lemma {:induction false} ClosedPages(env: Env, items: seq<Item>, n: nat)
    requires n <= |items|
    ensures PagesInOrder(Closed(env, items, n), StartOf(items, Current(items, n)))
  {
    hide SectionPathOf, SectionId, Strip, Bodies, Kept;
    if n > 0 {
      ClosedPages(env, items, n - 1);
      if items[n - 1].Head? {
        FlushPages(env, items, n - 1, Closed(env, items, n - 1));
      }
    }
  }

  lemma FlushPages(env: Env, items: seq<Item>, n: nat, sections: seq<Section>)
    requires n <= |items|
    requires PagesInOrder(sections, StartOf(items, Current(items, n)))
    ensures PagesInOrder(sections + Flush(env, items, n), PageAt(items, n))
  {
    hide SectionPathOf, SectionId, Strip, Bodies, Kept;
    var c := Current(items, n);
    PageAtGrows(items, if c < 0 then 0 else c, n);
    var s := SectionOf(env, items, c, n);
    assert s.pageStart == Some(StartOf(items, c)) && s.pageEnd == Some(PageAt(items, n));
  }

  /** Pages: the page count is one more than the number of page splits, and the sections'
      page ranges are non-empty, ordered, and end on the last page. */
  lemma ParsePages(env: Env, markdown: string)
    requires Strip(markdown) != ""
    ensures Parse(env, markdown).pageCount == 1 + PageBreaks(Items(env, SplitLines(markdown)))
    ensures PagesInOrder(Parse(env, markdown).sections, Parse(env, markdown).pageCount)
  {
    hide Items, Flush, Strip, SplitLines, PagesInOrder, Closed, Entries, Warnings;
    var items := Items(env, SplitLines(markdown));
    PageAtCounts(items, |items|);
    ClosedPages(env, items, |items|);
    FlushPages(env, items, |items|, Closed(env, items, |items|));
  }

  /** The opening section always survives, so the fallback for an empty list never applies. */
  lemma {:induction false} OpeningSectionKept(env: Env, items: seq<Item>, n: nat)
    requires n <= |items|
    ensures Current(items, n) >= 0 ==> Closed(env, items, n) != [] && Closed(env, items, n)[0].title == UNTITLED
    ensures Closed(env, items, n) + Flush(env, items, n) != []
    ensures (Closed(env, items, n) + Flush(env, items, n))[0].title == UNTITLED
  {
    hide SectionPathOf, SectionId, Strip, Bodies;
    if n > 0 {
      OpeningSectionKept(env, items, n - 1);
    }
  }
}
