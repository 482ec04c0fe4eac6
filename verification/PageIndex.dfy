/** `write_page_index`: the chunks of a document grouped by starting page. */
module PageIndex {
  import opened Wrappers
  import opened Text
  import Outline
  import opened Chunker

  datatype SectionRef = SectionRef(sectionId: string, path: seq<string>, chunkIndex: nat)
  datatype PageRow = PageRow(pageNo: nat, sections: seq<SectionRef>, blockCount: nat, text: string)

  /** A missing or zero page counts as page 1. */
  function PageOf(c: Chunk): nat {
    if c.pageStart.Some? && c.pageStart.value != 0 then c.pageStart.value else 1
  }

  function Pages(chunks: seq<Chunk>): set<nat> {
    set i | 0 <= i < |chunks| :: PageOf(chunks[i])
  }

  /** The chunks whose page is among `pages`, in their order. */
  function On(chunks: seq<Chunk>, pages: set<nat>): (r: seq<Chunk>)
    ensures |r| <= |chunks|
  {
    if chunks == [] then []
    else
      var last := chunks[|chunks| - 1];
      On(chunks[..|chunks| - 1], pages) + (if PageOf(last) in pages then [last] else [])
  }

  function RefOf(c: Chunk): SectionRef {
    SectionRef(c.sectionId, c.path, c.index)
  }

  function Refs(chunks: seq<Chunk>): (r: seq<SectionRef>)
    ensures |r| == |chunks|
  {
    seq(|chunks|, i requires 0 <= i < |chunks| => RefOf(chunks[i]))
  }

  function Texts(chunks: seq<Chunk>): seq<string> {
    seq(|chunks|, i requires 0 <= i < |chunks| => chunks[i].content)
  }

  function RowOf(page: nat, chunks: seq<Chunk>): PageRow {
    PageRow(page, Refs(chunks), |chunks|, Join(Texts(chunks), "\n\n"))
  }

  predicate IsLeast(p: nat, pages: set<nat>) {
    p in pages && forall q | q in pages :: p <= q
  }

  lemma {:induction false} LeastExists(pages: set<nat>)
    requires pages != {}
    ensures exists p :: IsLeast(p, pages)
  {
    var x :| x in pages;
    if pages == {x} {
      assert IsLeast(x, pages);
    } else {
      LeastExists(pages - {x});
      var p :| IsLeast(p, pages - {x});
      assert pages == (pages - {x}) + {x};
      assert IsLeast(if x < p then x else p, pages);
    }
  }

  ghost function Least(pages: set<nat>): (p: nat)
    requires pages != {}
    ensures IsLeast(p, pages)
  {
    LeastExists(pages);
    var p :| IsLeast(p, pages);
    p
  }

  /** One row per page, pages ascending. */
  ghost function RowsFor(chunks: seq<Chunk>, pages: set<nat>): seq<PageRow>
    decreases pages
  {
    if pages == {} then []
    else
      var p := Least(pages);
      [RowOf(p, On(chunks, {p}))] + RowsFor(chunks, pages - {p})
  }

  ghost function PageIndexOf(chunks: seq<Chunk>): seq<PageRow> {
    RowsFor(chunks, Pages(chunks))
  }

  lemma {:induction false} NothingOn(chunks: seq<Chunk>, pages: set<nat>)
    requires Pages(chunks) !! pages
    ensures On(chunks, pages) == []
  {
    if chunks != [] {
      var init := chunks[..|chunks| - 1];
      assert Pages(init) <= Pages(chunks) by {
        assert forall i | 0 <= i < |init| :: init[i] == chunks[i];
      }
      assert PageOf(chunks[|chunks| - 1]) in Pages(chunks);
      NothingOn(init, pages);
    }
  }

  /** The dictionary of lists, filled chunk by chunk. */
  method GroupByPage(chunks: seq<Chunk>) returns (pages: map<nat, seq<Chunk>>)
    ensures pages.Keys == Pages(chunks)
    ensures forall p | p in pages :: pages[p] == On(chunks, {p})
  {
    pages := map[];
    for i := 0 to |chunks|
      invariant pages.Keys == Pages(chunks[..i])
      invariant forall p | p in pages :: pages[p] == On(chunks[..i], {p})
    {
      var page := PageOf(chunks[i]);
      OneMore(chunks, i);
      if page !in pages {
        NothingOn(chunks[..i], {page});
        pages := pages[page := []];
      }
      pages := pages[page := pages[page] + [chunks[i]]];
    }
    assert chunks[..|chunks|] == chunks;
  }

  lemma OneMore(chunks: seq<Chunk>, i: nat)
    requires i < |chunks|
    ensures Pages(chunks[..i + 1]) == Pages(chunks[..i]) + {PageOf(chunks[i])}
    ensures forall p :: On(chunks[..i + 1], {p}) ==
                        On(chunks[..i], {p}) + (if PageOf(chunks[i]) == p then [chunks[i]] else [])
  {
    var init, next := chunks[..i], chunks[..i + 1];
    assert next[..|next| - 1] == init;
    assert next[i] == chunks[i] && forall k | 0 <= k < i :: next[k] == init[k];
  }

  /** The page dictionary, then one row per key in key order. */
  method WritePageIndex(chunks: seq<Chunk>) returns (rows: seq<PageRow>, count: nat)
    ensures rows == PageIndexOf(chunks)
    ensures count == |Pages(chunks)|
  {
    var pages := GroupByPage(chunks);
    count := |pages.Keys|;
    rows := [];
    var rest := pages.Keys;
    while rest != {}
      invariant rest <= pages.Keys
      invariant rows + RowsFor(chunks, rest) == PageIndexOf(chunks)
      decreases rest
    {
      LeastExists(rest);
      var p :| p in rest && IsLeast(p, rest);
      assert p == Least(rest);
      Assoc(rows, [RowOf(p, pages[p])], RowsFor(chunks, rest - {p}));
      rows := rows + [RowOf(p, pages[p])];
      rest := rest - {p};
    }
  }

  // ---------- what holds of every page index ----------

  ghost predicate Ascending(rows: seq<PageRow>) {
    forall j, k | 0 <= j < k < |rows| :: rows[j].pageNo < rows[k].pageNo
  }

  lemma {:induction false} RowsAscend(chunks: seq<Chunk>, pages: set<nat>)
    ensures Ascending(RowsFor(chunks, pages))
    ensures forall k | 0 <= k < |RowsFor(chunks, pages)| ::
              var row := RowsFor(chunks, pages)[k];
              row.pageNo in pages && row == RowOf(row.pageNo, On(chunks, {row.pageNo}))
    ensures |RowsFor(chunks, pages)| == |pages|
    decreases pages
  {
    if pages != {} {
      RowsAscend(chunks, pages - {Least(pages)});
    }
  }

  function AllRefs(rows: seq<PageRow>): seq<SectionRef> {
    if rows == [] then [] else rows[0].sections + AllRefs(rows[1..])
  }

  function Blocks(rows: seq<PageRow>): nat {
    if rows == [] then 0 else rows[0].blockCount + Blocks(rows[1..])
  }

  lemma RefsAppend(a: seq<Chunk>, b: seq<Chunk>)
    ensures Refs(a + b) == Refs(a) + Refs(b)
  {}

  lemma RefsSnoc(chunks: seq<Chunk>, c: Chunk)
    ensures Refs(chunks + [c]) == Refs(chunks) + [RefOf(c)]
  {}

  lemma {:induction false} OnSplit(chunks: seq<Chunk>, pages: set<nat>, p: nat)
    requires p in pages
    ensures multiset(Refs(On(chunks, pages))) ==
            multiset(Refs(On(chunks, {p}))) + multiset(Refs(On(chunks, pages - {p})))
    ensures |On(chunks, pages)| == |On(chunks, {p})| + |On(chunks, pages - {p})|
  {
    hide Refs, RefOf;
    RefsNone();
    if chunks != [] {
      var init, last := chunks[..|chunks| - 1], chunks[|chunks| - 1];
      OnSplit(init, pages, p);
      RefsSnoc(On(init, pages), last);
      RefsSnoc(On(init, {p}), last);
      RefsSnoc(On(init, pages - {p}), last);
      OnSnoc(chunks, pages);
      OnSnoc(chunks, {p});
      OnSnoc(chunks, pages - {p});
    }
  }

  lemma RefsNone()
    ensures Refs([]) == []
  {}

  lemma OnSnoc(chunks: seq<Chunk>, pages: set<nat>)
    requires chunks != []
    ensures var last := chunks[|chunks| - 1];
            On(chunks, pages) ==
            if PageOf(last) in pages then On(chunks[..|chunks| - 1], pages) + [last]
            else On(chunks[..|chunks| - 1], pages)
  {}

  lemma {:induction false} RowsHold(chunks: seq<Chunk>, pages: set<nat>)
    ensures multiset(AllRefs(RowsFor(chunks, pages))) == multiset(Refs(On(chunks, pages)))
    ensures Blocks(RowsFor(chunks, pages)) == |On(chunks, pages)|
    decreases pages
  {
    if pages == {} {
      NothingOn(chunks, pages);
    } else {
      hide Refs, On, RowOf;
      var p := Least(pages);
      var rest := pages - {p};
      RowsHold(chunks, rest);
      OnSplit(chunks, pages, p);
      RowOfRefs(p, On(chunks, {p}));
      assert RowsFor(chunks, pages)[1..] == RowsFor(chunks, rest);
      assert RowsFor(chunks, pages)[0] == RowOf(p, On(chunks, {p}));
    }
  }

  lemma RowOfRefs(p: nat, chunks: seq<Chunk>)
    ensures RowOf(p, chunks).sections == Refs(chunks) && RowOf(p, chunks).blockCount == |chunks|
  {}

  lemma {:induction false} OnAll(chunks: seq<Chunk>, pages: set<nat>)
    requires Pages(chunks) <= pages
    ensures On(chunks, pages) == chunks
  {
    if chunks != [] {
      var init := chunks[..|chunks| - 1];
      assert Pages(init) <= Pages(chunks) by {
        assert forall i | 0 <= i < |init| :: init[i] == chunks[i];
      }
      assert PageOf(chunks[|chunks| - 1]) in Pages(chunks);
      OnAll(init, pages);
      assert chunks == init + [chunks[|chunks| - 1]];
    }
  }

  /** For any chunks: the rows are in strictly ascending page order, each is exactly the
      chunks of its page in chunk order, every chunk is referred to exactly once, and the
      block counts add up to the number of chunks. */
  lemma PageIndexPartitions(chunks: seq<Chunk>)
    ensures var rows := PageIndexOf(chunks);
            && Ascending(rows)
            && |rows| == |Pages(chunks)|
            && (forall k | 0 <= k < |rows| :: rows[k].sections == Refs(On(chunks, {rows[k].pageNo})))
            && multiset(AllRefs(rows)) == multiset(Refs(chunks))
            && Blocks(rows) == |chunks|
  {
    var pages := Pages(chunks);
    RowsAscend(chunks, pages);
    RowsHold(chunks, pages);
    OnAll(chunks, pages);
  }

  // ---------- the rows, said of the chunks ----------

  /** The positions of the chunks that start on the page, from first to last; a chunk without a
      page, or on page 0, counts for page 1. */
  ghost predicate OnPage(chunks: seq<Chunk>, page: nat, at: seq<nat>) {
    && Text.Ascending(at)
    && forall i: nat {:trigger i in at} :: i in at <==>
         && i < |chunks|
         && page == if chunks[i].pageStart == None || chunks[i].pageStart == Some(0) then 1 else chunks[i].pageStart.value
  }

  ghost predicate RowHolds(chunks: seq<Chunk>, row: PageRow, at: seq<nat>, texts: seq<string>) {
    && row.blockCount == |row.sections| == |texts| == |at|
    && row.text == Join(texts, "\n\n")
    && forall k | 0 <= k < |at| ::
         && at[k] < |chunks| && texts[k] == chunks[at[k]].content
         && row.sections[k].sectionId == chunks[at[k]].sectionId
         && row.sections[k].path == chunks[at[k]].path
         && row.sections[k].chunkIndex == chunks[at[k]].index
  }

  /** The same for the first n chunks. */
  ghost predicate OnPageTo(chunks: seq<Chunk>, page: nat, n: nat, at: seq<nat>)
    requires n <= |chunks|
  {
    Text.Ascending(at) && forall i: nat {:trigger i in at} :: i in at <==> i < n && PageOf(chunks[i]) == page
  }

  lemma OnSnocIs(chunks: seq<Chunk>, page: nat, n: nat)
    requires n < |chunks|
    ensures On(chunks[..n + 1], {page}) ==
            On(chunks[..n], {page}) + if PageOf(chunks[n]) == page then [chunks[n]] else []
  {
    assert chunks[..n + 1][..n] == chunks[..n];
  }

  lemma {:induction false} OnListed(chunks: seq<Chunk>, page: nat, n: nat) returns (at: seq<nat>)
    requires n <= |chunks|
    ensures OnPageTo(chunks, page, n, at) && |On(chunks[..n], {page})| == |at|
    ensures forall k | 0 <= k < |at| :: at[k] < n && On(chunks[..n], {page})[k] == chunks[at[k]]
  {
    if n == 0 {
      return [];
    }
    hide On, PageOf;
    var before := OnListed(chunks, page, n - 1);
    OnSnocIs(chunks, page, n - 1);
    AscendingSnoc(before, n - 1);
    hide Text.Ascending;
    at := if PageOf(chunks[n - 1]) == page then before + [n - 1] else before;
  }

  lemma OnIs(chunks: seq<Chunk>, page: nat) returns (at: seq<nat>)
    ensures OnPage(chunks, page, at) && |On(chunks, {page})| == |at|
    ensures forall k | 0 <= k < |at| :: at[k] < |chunks| && On(chunks, {page})[k] == chunks[at[k]]
  {
    at := OnListed(chunks, page, |chunks|);
    assert chunks[..|chunks|] == chunks;
    hide On;
  }

  lemma RowOfIs(chunks: seq<Chunk>, page: nat) returns (at: seq<nat>, texts: seq<string>)
    ensures OnPage(chunks, page, at) && RowHolds(chunks, RowOf(page, On(chunks, {page})), at, texts)
  {
    hide OnPage, Join;
    at := OnIs(chunks, page);
    texts := Texts(On(chunks, {page}));
  }

  ghost predicate IsRow(chunks: seq<Chunk>, row: PageRow) {
    exists at, texts :: OnPage(chunks, row.pageNo, at) && at != [] && RowHolds(chunks, row, at, texts)
  }

  ghost predicate HasRow(rows: seq<PageRow>, page: nat) {
    exists row :: row in rows && row.pageNo == page
  }

  /** There is one row for each page on which a chunk starts, in the order of the pages, and it
      holds the references and the text of the chunks that start there. */
  lemma PageRowsAre(chunks: seq<Chunk>)
    ensures Ascending(PageIndexOf(chunks))
    ensures forall row | row in PageIndexOf(chunks) :: IsRow(chunks, row)
    ensures forall c | c in chunks ::
              HasRow(PageIndexOf(chunks), if c.pageStart == None || c.pageStart == Some(0) then 1 else c.pageStart.value)
  {
    hide RowOf, OnPage, RowHolds, On, RowsFor, HasRow;
    var pages, rows := Pages(chunks), PageIndexOf(chunks);
    RowsAscend(chunks, pages);
    forall row | row in rows ensures IsRow(chunks, row) {
      RowOfPage(row.pageNo, On(chunks, {row.pageNo}));
      var at, texts := RowOfIs(chunks, row.pageNo);
      SomeOnPage(chunks, row.pageNo, at);
    }
    forall c | c in chunks
      ensures HasRow(rows, PageOf(c))
    {
      var i :| 0 <= i < |chunks| && chunks[i] == c;
      assert PageOf(chunks[i]) in pages;
      EveryPageHasRow(chunks, pages, PageOf(c));
    }
  }

  lemma RowOfPage(page: nat, chunks: seq<Chunk>)
    ensures RowOf(page, chunks).pageNo == page
  {}

  lemma SomeOnPage(chunks: seq<Chunk>, page: nat, at: seq<nat>)
    requires page in Pages(chunks) && OnPage(chunks, page, at)
    ensures at != []
  {
    var i :| 0 <= i < |chunks| && PageOf(chunks[i]) == page;
    assert i in at;
  }

  lemma {:induction false} EveryPageHasRow(chunks: seq<Chunk>, pages: set<nat>, page: nat)
    requires page in pages
    ensures HasRow(RowsFor(chunks, pages), page)
    decreases pages
  {
    hide RowOf;
    var p := Least(pages);
    RowOfPage(p, On(chunks, {p}));
    if page == p {
      assert RowsFor(chunks, pages)[0].pageNo == page;
    } else {
      EveryPageHasRow(chunks, pages - {p}, page);
      var row :| row in RowsFor(chunks, pages - {p}) && row.pageNo == page;
      assert row in RowsFor(chunks, pages);
    }
  }

  // ---------- the index of a parsed document is in reading order ----------

  ghost predicate PagesAscend(chunks: seq<Chunk>) {
    forall i, j | 0 <= i < j < |chunks| :: PageOf(chunks[i]) <= PageOf(chunks[j])
  }

  lemma {:induction false} OnLeastFirst(chunks: seq<Chunk>, pages: set<nat>, p: nat)
    requires PagesAscend(chunks) && IsLeast(p, pages)
    ensures On(chunks, pages) == On(chunks, {p}) + On(chunks, pages - {p})
  {
    if chunks != [] {
      var init, last := chunks[..|chunks| - 1], chunks[|chunks| - 1];
      OnLeastFirst(init, pages, p);
      if PageOf(last) == p {
        OnlyLeastSoFar(init, pages, p);
      }
    }
  }

  lemma {:induction false} OnlyLeastSoFar(chunks: seq<Chunk>, pages: set<nat>, p: nat)
    requires IsLeast(p, pages)
    requires forall i | 0 <= i < |chunks| :: PageOf(chunks[i]) <= p
    ensures On(chunks, pages - {p}) == []
  {
    assert Pages(chunks) !! (pages - {p});
    NothingOn(chunks, pages - {p});
  }

  lemma {:induction false} RowsInOrder(chunks: seq<Chunk>, pages: set<nat>)
    requires PagesAscend(chunks)
    ensures AllRefs(RowsFor(chunks, pages)) == Refs(On(chunks, pages))
    decreases pages
  {
    if pages == {} {
      NothingOn(chunks, pages);
    } else {
      var p := Least(pages);
      RowsInOrder(chunks, pages - {p});
      OnLeastFirst(chunks, pages, p);
      RefsAppend(On(chunks, {p}), On(chunks, pages - {p}));
      assert RowsFor(chunks, pages)[1..] == RowsFor(chunks, pages - {p});
    }
  }

  lemma {:induction false} ChunkPages(env: Env, sections: seq<Outline.Section>, last: nat)
    requires Outline.PagesInOrder(sections, last)
    ensures PagesAscend(ChunkOutline(env, sections))
    ensures forall i | 0 <= i < |ChunkOutline(env, sections)| ::
              exists k | 0 <= k < |sections| :: PageOf(ChunkOutline(env, sections)[i]) == sections[k].pageStart.value
  {
    hide Emissions;
    if sections != [] {
      var n := |sections| - 1;
      var init, s := sections[..n], sections[n];
      ChunkPages(env, init, last);
      var before := ChunkOutline(env, init);
      var more := SectionChunks(env, s, |before|);
      assert forall i | 0 <= i < |more| :: PageOf(more[i]) == s.pageStart.value;
      forall i | 0 <= i < |before|
        ensures exists k | 0 <= k < n :: PageOf(before[i]) == sections[k].pageStart.value
        ensures PageOf(before[i]) <= s.pageStart.value
      {
        var k :| 0 <= k < |init| && PageOf(before[i]) == init[k].pageStart.value;
        assert sections[k] == init[k];
      }
      forall i | 0 <= i < |before + more|
        ensures exists k | 0 <= k < |sections| :: PageOf((before + more)[i]) == sections[k].pageStart.value
      {
        if i >= |before| {
          assert PageOf((before + more)[i]) == sections[n].pageStart.value;
        }
      }
    }
  }

  /** From markdown to page index: the rows, read one after the other, refer to the chunks
      0, 1, 2, ... in order, and nothing else. */
  lemma IndexReadsInOrder(outlineEnv: Outline.Env, env: Env, markdown: string)
    requires Strip(markdown) != ""
    ensures var chunks := ChunkOutline(env, Outline.Parse(outlineEnv, markdown).sections);
            var refs := AllRefs(PageIndexOf(chunks));
            && refs == Refs(chunks)
            && forall i | 0 <= i < |refs| :: refs[i].chunkIndex == i
  {
    hide Outline.Parse, Outline.PagesInOrder, ChunkOutline, Strip;
    var parsed := Outline.Parse(outlineEnv, markdown);
    var chunks := ChunkOutline(env, parsed.sections);
    Outline.ParsePages(outlineEnv, markdown);
    ChunkPages(env, parsed.sections, parsed.pageCount);
    ChunksAreNumbered(env, parsed.sections);
    RowsInOrder(chunks, Pages(chunks));
    OnAll(chunks, Pages(chunks));
  }
}
