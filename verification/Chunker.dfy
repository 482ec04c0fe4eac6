/** `chunk_outline`: greedy packing of semantic pieces with tail overlap and hard splits. */
module Chunker {
  import opened Wrappers
  import opened Text
  import Outline

  /** What stays abstract: cutting a section into pieces, the content type, the digest; and
      the two settings. */
  datatype Env = Env(pieces: string -> seq<string>, contentType: string -> string,
                     sha256: string -> string, limit: int, overlap: int)

  datatype Chunk = Chunk(index: nat, content: string, path: seq<string>, sectionId: string,
                         pageStart: Option<nat>, pageEnd: Option<nat>, contentType: string,
                         tokens: nat, sha256: string)

  // ---------- counting tokens ----------

  predicate IsWord(c: char) {
    'A' <= c <= 'Z' || 'a' <= c <= 'z' || '0' <= c <= '9' || c == '_'
  }

  predicate IsIdeograph(c: char) {
    '\U{4E00}' <= c <= '\U{9FFF}'
  }

  /** Number of maximal runs of word characters. */
  function Words(s: string): nat {
    if s == "" then 0
    else
      var n := |s|;
      Words(s[..n - 1]) + (if IsWord(s[n - 1]) && (n == 1 || !IsWord(s[n - 2])) then 1 else 0)
  }

  function Count(s: string, p: char -> bool): nat {
    if s == "" then 0 else Count(s[..|s| - 1], p) + (if p(s[|s| - 1]) then 1 else 0)
  }

  /** Characters that are neither in a word nor an ideograph. */
  function Others(s: string): nat {
    var n := |s| - Count(s, IsWord) - Count(s, IsIdeograph);
    if n < 0 then 0 else n
  }

  function Solid(s: string): nat {
    Words(s) + Count(s, IsIdeograph)
  }

  function CountTokens(s: string): nat {
    Solid(s) + Others(s) / 4
  }

  /** The count said of positions: one for each position where a run of ASCII letters, digits
      or underscores begins, one for each ideograph, one for every four of the rest. */
  lemma CountTokensIs(s: string, word: set<nat>, starts: set<nat>, ideographs: set<nat>, rest: set<nat>)
    requires word == set i: nat | i < |s| &&
                       ('A' <= s[i] <= 'Z' || 'a' <= s[i] <= 'z' || '0' <= s[i] <= '9' || s[i] == '_')
    requires starts == set i: nat {:trigger i in word} | i < |s| && i in word && (i == 0 || i - 1 !in word)
    requires ideographs == set i: nat | i < |s| && '\U{4E00}' <= s[i] <= '\U{9FFF}'
    requires rest == set i: nat | i < |s| && i !in word && i !in ideographs
    ensures CountTokens(s) == |starts| + |ideographs| + |rest| / 4
  {
    hide CountTokens;
    assert InClass(s, IsWord, word) && InClass(s, IsIdeograph, ideographs);
    TokensOf(s, word, starts, ideographs, rest);
  }

  /** The positions of the characters of a class. */
  ghost predicate InClass(s: string, p: char -> bool, at: set<nat>) {
    forall i: nat {:trigger i in at} :: i in at <==> i < |s| && p(s[i])
  }

  lemma TokensOf(s: string, word: set<nat>, starts: set<nat>, ideographs: set<nat>, rest: set<nat>)
    requires InClass(s, IsWord, word) && InClass(s, IsIdeograph, ideographs)
    requires forall i: nat {:trigger i in starts} :: i in starts <==> i < |s| && i in word && (i == 0 || i - 1 !in word)
    requires forall i: nat {:trigger i in rest} :: i in rest <==> i < |s| && i !in word && i !in ideographs
    ensures CountTokens(s) == |starts| + |ideographs| + |rest| / 4
  {
    CountIs(s, IsWord, word);
    CountIs(s, IsIdeograph, ideographs);
    forall i | i in word ensures i !in ideographs {
      NotBoth(s[i]);
    }
    hide IsWord, IsIdeograph, Words, Count;
    Covered(|s|, word, ideographs, rest);
    WordsAre(s, word, starts);
  }

  lemma NotBoth(c: char)
    ensures !(IsWord(c) && IsIdeograph(c))
  {}

  lemma Covered(n: nat, a: set<nat>, b: set<nat>, c: set<nat>)
    requires a !! b && a + b !! c && forall i: nat :: i in a + b + c <==> i < n
    ensures |a| + |b| + |c| == n
  {
    AllPositions(n, a + b + c);
    assert |a + b + c| == |a + b| + |c|;
  }

  lemma {:induction false} AllPositions(n: nat, all: set<nat>)
    requires forall i: nat :: i in all <==> i < n
    ensures |all| == n
  {
    if n > 0 {
      AllPositions(n - 1, all - {n - 1});
    } else {
      assert forall i: nat :: i !in all;
    }
  }

  lemma {:induction false} CountIs(s: string, p: char -> bool, at: set<nat>)
    requires InClass(s, p, at)
    ensures Count(s, p) == |at|
  {
    if s != "" {
      var n: nat := |s| - 1;
      CountIs(s[..n], p, at - {n});
    } else {
      assert forall i: nat :: i !in at;
    }
  }

  lemma {:induction false} WordsAre(s: string, word: set<nat>, starts: set<nat>)
    requires InClass(s, IsWord, word)
    requires forall i: nat {:trigger i in starts} :: i in starts <==> i < |s| && i in word && (i == 0 || i - 1 !in word)
    ensures Words(s) == |starts|
  {
    hide IsWord;
    if s != "" {
      var n: nat := |s| - 1;
      WordsAre(s[..n], word - {n}, starts - {n});
      assert IsWord(s[n]) <==> n in word;
      assert n > 0 ==> (IsWord(s[n - 1]) <==> n - 1 in word);
    } else {
      assert forall i: nat :: i !in starts;
    }
  }

  lemma {:induction false} CountAppend(a: string, b: string, p: char -> bool)
    ensures Count(a + b, p) == Count(a, p) + Count(b, p)
  {
    if b == "" {
      assert a + b == a;
    } else {
      assert (a + b)[..|a + b| - 1] == a + b[..|b| - 1];
      CountAppend(a, b[..|b| - 1], p);
    }
  }

  /** Two texts whose seam is not inside a word. */
  predicate Seam(a: string, b: string) {
    a == "" || b == "" || !IsWord(a[|a| - 1]) || !IsWord(b[0])
  }

  lemma {:induction false} WordsAppend(a: string, b: string)
    requires Seam(a, b)
    ensures Words(a + b) == Words(a) + Words(b)
  {
    if b == "" {
      assert a + b == a;
    } else {
      var b' := b[..|b| - 1];
      assert (a + b)[..|a + b| - 1] == a + b';
      WordsAppend(a, b');
    }
  }

  lemma {:induction false} WordsFit(s: string)
    ensures Count(s, IsWord) + Count(s, IsIdeograph) <= |s|
    ensures Words(s) <= Count(s, IsWord)
  {
    if s != "" {
      WordsFit(s[..|s| - 1]);
    }
  }

  lemma PartsAppend(a: string, b: string)
    requires Seam(a, b)
    ensures Solid(a + b) == Solid(a) + Solid(b)
    ensures Others(a + b) == Others(a) + Others(b)
  {
    WordsAppend(a, b);
    CountAppend(a, b, IsWord);
    CountAppend(a, b, IsIdeograph);
    WordsFit(a);
    WordsFit(b);
  }

  lemma TokensFit(s: string)
    ensures CountTokens(s) <= |s|
  {
    WordsFit(s);
  }

  lemma {:induction false} BlankParts(s: string)
    requires IsBlank(s)
    ensures Solid(s) == 0 && Others(s) == |s|
  {
    if s != "" {
      var t := s[..|s| - 1];
      assert IsSpace(s[|s| - 1]);
      BlankParts(t);
    }
  }

  /** Stripping never adds tokens. */
  lemma StripTokens(s: string)
    ensures CountTokens(Strip(s)) <= CountTokens(s)
  {
    hide Seam, Solid, Others, LStrip, RStrip;
    LStripCut(s);
    var l := LStrip(s);
    var head := s[..|s| - |l|];
    assert s == head + l;
    BlankSeam(head, l);
    BlankParts(head);
    PartsAppend(head, l);
    RStripCut(l);
    var r, tail := RStrip(l), l[|RStrip(l)|..];
    assert l == r + tail;
    BlankSeam(tail, r);
    BlankParts(tail);
    PartsAppend(r, tail);
  }

  lemma BlankSeam(blank: string, s: string)
    requires IsBlank(blank)
    ensures Seam(blank, s) && Seam(s, blank)
  {
    if blank != "" {
      assert IsSpace(blank[0]) && IsSpace(blank[|blank| - 1]);
    }
  }

  function SumTokens(pieces: seq<string>): nat {
    if pieces == [] then 0 else SumTokens(pieces[..|pieces| - 1]) + CountTokens(pieces[|pieces| - 1])
  }

  lemma SumTokensSnoc(pieces: seq<string>, p: string)
    ensures SumTokens(pieces + [p]) == SumTokens(pieces) + CountTokens(p)
  {
    assert (pieces + [p])[..|pieces|] == pieces;
  }

  lemma {:induction false} SumTokensAppend(a: seq<string>, b: seq<string>)
    ensures SumTokens(a + b) == SumTokens(a) + SumTokens(b)
  {
    if b == [] {
      assert a + b == a;
    } else {
      var init, p := b[..|b| - 1], b[|b| - 1];
      SumTokensAppend(a, init);
      assert a + b == (a + init) + [p];
      SumTokensSnoc(a + init, p);
    }
  }

  function Content(pieces: seq<string>): string {
    Join(pieces, "\n\n")
  }

  /** Joining n pieces costs no token less than their sum and at most (5n - 2) / 4 more. */
  lemma {:induction false} JoinTokens(pieces: seq<string>)
    ensures SumTokens(pieces) <= CountTokens(Content(pieces))
    ensures pieces != [] ==> CountTokens(Content(pieces)) <= SumTokens(pieces) + (5 * |pieces| - 2) / 4
    ensures Solid(Content(pieces)) * 4 + Others(Content(pieces)) >= 4 * SumTokens(pieces)
    ensures pieces != [] ==>
              Solid(Content(pieces)) * 4 + Others(Content(pieces)) <= 4 * SumTokens(pieces) + 5 * |pieces| - 2
  {
    if |pieces| == 1 {
      assert pieces[..0] == [];
    } else if |pieces| > 1 {
      var init, p := pieces[..|pieces| - 1], pieces[|pieces| - 1];
      JoinTokens(init);
      assert pieces == init + [p];
      JoinAppend(init, [p], "\n\n");
      JoinPairTokens(Content(init), p);
    }
  }

  lemma JoinPairTokens(a: string, p: string)
    ensures Solid(a + "\n\n" + p) == Solid(a) + Solid(p)
    ensures Others(a + "\n\n" + p) == Others(a) + 2 + Others(p)
  {
    PartsAppend(a, "\n\n");
    BlankParts("\n\n");
    PartsAppend(a + "\n\n", p);
  }

  // ---------- splitting and overlapping ----------

  /** `_hard_split`: fixed-width slices; the whole text when there is no positive limit. */
  function HardSplit(s: string, limit: int): seq<string>
    decreases |s|
  {
    if limit <= 0 then [s]
    else if s == "" then []
    else if |s| <= limit then [s]
    else [s[..limit]] + HardSplit(s[limit..], limit)
  }

  /** The slices put together again are the text; without a positive limit there is one, and
      otherwise all but the last are as long as the limit. */
  lemma {:induction false} HardSplitRejoins(s: string, limit: int)
    ensures Concat(HardSplit(s, limit)) == s
    ensures limit <= 0 ==> HardSplit(s, limit) == [s]
    ensures limit > 0 ==> forall k | 0 <= k < |HardSplit(s, limit)| - 1 :: |HardSplit(s, limit)[k]| == limit
    ensures limit > 0 ==> forall k | 0 <= k < |HardSplit(s, limit)| ::
                            0 < |HardSplit(s, limit)[k]| <= limit && CountTokens(HardSplit(s, limit)[k]) <= limit
    decreases |s|
  {
    if limit > 0 && |s| > limit {
      var rest := HardSplit(s[limit..], limit);
      HardSplitRejoins(s[limit..], limit);
      TokensFit(s[..limit]);
      assert HardSplit(s, limit) == [s[..limit]] + rest;
    } else {
      TokensFit(s);
    }
  }

  /** Where the tail that reaches `need` tokens starts. */
  function TailStart(pieces: seq<string>, need: int): (i: nat)
    ensures i <= |pieces|
  {
    if need <= 0 || pieces == [] then |pieces|
    else TailStart(pieces[..|pieces| - 1], need - CountTokens(pieces[|pieces| - 1]))
  }

  function TailOverlap(pieces: seq<string>, overlap: int): seq<string> {
    pieces[TailStart(pieces, overlap)..]
  }

  /** The overlap is the shortest suffix that reaches `overlap` tokens, or everything; there is
      none if none is asked for. */
  lemma {:induction false} TailIsShortest(pieces: seq<string>, overlap: int)
    ensures overlap <= 0 ==> TailOverlap(pieces, overlap) == []
    ensures overlap > 0 ==>
            var i := TailStart(pieces, overlap);
            && (SumTokens(pieces[i..]) >= overlap || i == 0)
            && (forall j | i < j <= |pieces| :: SumTokens(pieces[j..]) < overlap)
  {
    if overlap > 0 && pieces != [] {
      var init, p := pieces[..|pieces| - 1], pieces[|pieces| - 1];
      var rest := overlap - CountTokens(p);
      var i := TailStart(pieces, overlap);
      forall j | 0 <= j < |pieces|
        ensures SumTokens(pieces[j..]) == SumTokens(init[j..]) + CountTokens(p)
      {
        assert pieces[j..] == init[j..] + [p];
        SumTokensSnoc(init[j..], p);
      }
      assert pieces[|pieces|..] == [];
      if rest > 0 {
        TailIsShortest(init, rest);
      } else {
        assert init[|init|..] == [];
      }
    }
  }

  method SelectTail(pieces: seq<string>, overlap: int) returns (selected: seq<string>)
    ensures selected == TailOverlap(pieces, overlap)
  {
    if overlap <= 0 {
      return [];
    }
    selected := [];
    var total, i := 0, |pieces|;
    assert pieces[..i] == pieces;
    while i > 0
      invariant 0 <= i <= |pieces| && selected == pieces[i..]
      invariant total < overlap
      invariant TailStart(pieces, overlap) == TailStart(pieces[..i], overlap - total)
    {
      i := i - 1;
      selected := [pieces[i]] + selected;
      total := total + CountTokens(pieces[i]);
      assert pieces[..i + 1][..i] == pieces[..i];
      if total >= overlap {
        break;
      }
    }
  }

  // ---------- packing ----------

  /** One emitted chunk: the pieces repeated from the chunk before, then the new ones. */
  datatype Emission = Emission(overlap: seq<string>, added: seq<string>, hard: bool) {
    function Pieces(): seq<string> { overlap + added }
  }

  function HardEmissions(parts: seq<string>): seq<Emission> {
    seq(|parts|, k requires 0 <= k < |parts| => Emission([], [parts[k]], true))
  }

  function TailEmission(tail: seq<string>): seq<Emission> {
    if tail == [] then [] else [Emission(tail, [], false)]
  }

  /** What one piece does to the gathered pieces: the chunks it closes and what remains. */
  datatype Cut = Cut(out: seq<Emission>, carried: seq<string>, added: seq<string>, tokens: nat)

  function TakePiece(p: string, limit: int, overlap: int, carried: seq<string>, added: seq<string>, tokens: nat): Cut {
    var cost, current := CountTokens(p), carried + added;
    var full := current != [] && tokens + cost > limit;
    var tail := if full then TailOverlap(current, overlap) else [];
    var closed := if full then [Emission(carried, added, false)] else [];
    if cost > limit then
      Cut((closed + TailEmission(tail)) + HardEmissions(HardSplit(p, limit)), [], [], 0)
    else if full then
      Cut(closed, tail, [p], CountTokens(Content(tail)) + cost)
    else
      Cut([], carried, added + [p], tokens + cost)
  }

  /** The chunks cut from the remaining pieces when `carried + added` is already gathered. */
  function Pack(pieces: seq<string>, limit: int, overlap: int,
                carried: seq<string>, added: seq<string>, tokens: nat): seq<Emission>
    decreases |pieces|
  {
    if pieces == [] then (if carried + added == [] then [] else [Emission(carried, added, false)])
    else
      var c := TakePiece(pieces[0], limit, overlap, carried, added, tokens);
      c.out + Pack(pieces[1..], limit, overlap, c.carried, c.added, c.tokens)
  }

  function Emissions(env: Env, content: string): seq<Emission> {
    Pack(env.pieces(content), env.limit, env.overlap, [], [], 0)
  }

  function BuildChunk(env: Env, s: Outline.Section, index: nat, content: string): Chunk {
    var normalized := Strip(content);
    Chunk(index, normalized, s.path, s.id, s.pageStart, s.pageEnd, env.contentType(normalized),
          CountTokens(normalized), env.sha256(normalized))
  }

  function BuildAll(env: Env, s: Outline.Section, start: nat, out: seq<Emission>): (chunks: seq<Chunk>)
    ensures |chunks| == |out|
  {
    seq(|out|, k requires 0 <= k < |out| => BuildChunk(env, s, start + k, Content(out[k].Pieces())))
  }

  lemma BuildSnoc(env: Env, s: Outline.Section, start: nat, out: seq<Emission>, e: Emission)
    ensures BuildAll(env, s, start, out + [e]) ==
            BuildAll(env, s, start, out) + [BuildChunk(env, s, start + |out|, Content(e.Pieces()))]
  {}

  function SectionChunks(env: Env, s: Outline.Section, start: nat): seq<Chunk> {
    BuildAll(env, s, start, Emissions(env, s.content))
  }

  /** All chunks of an outline, numbered through. */
  function ChunkOutline(env: Env, sections: seq<Outline.Section>): seq<Chunk> {
    if sections == [] then []
    else
      var before := ChunkOutline(env, sections[..|sections| - 1]);
      before + SectionChunks(env, sections[|sections| - 1], |before|)
  }

  // ---------- the chunking loops ----------

  /** One section: flush when full, split what is too big on its own, keep a tail. */
  method ChunkSection(env: Env, s: Outline.Section, start: nat) returns (result: seq<Chunk>)
    ensures result == SectionChunks(env, s, start)
  {
    var pieces := env.pieces(s.content);
    if pieces == [] {
      return [];
    }
    result := PackPieces(env, s, start, pieces);
  }

  /** The piece loop. */
  method PackPieces(env: Env, s: Outline.Section, start: nat, pieces: seq<string>) returns (result: seq<Chunk>)
    requires pieces == env.pieces(s.content)
    ensures result == SectionChunks(env, s, start)
  {
    hide *;
    result := [];
    var current: seq<string>, currentTokens: nat := [], 0;
    ghost var out: seq<Emission>, carried: seq<string>, added: seq<string> := [], [], [];
    ghost var goal := Emissions(env, s.content);
    BuildNone(env, s, start);
    assert pieces[0..] == pieces;
    for i := 0 to |pieces|
      invariant current == carried + added
      invariant result == BuildAll(env, s, start, out)
      invariant out + Pack(pieces[i..], env.limit, env.overlap, carried, added, currentTokens)
             == goal
    {
      ghost var c := TakePiece(pieces[i], env.limit, env.overlap, carried, added, currentTokens);
      PackStep(pieces[i..], env.limit, env.overlap, carried, added, currentTokens);
      assert pieces[i..][1..] == pieces[i + 1..];
      Assoc(out, c.out, Pack(pieces[i + 1..], env.limit, env.overlap, c.carried, c.added, c.tokens));
      result, current, currentTokens :=
        ChunkPiece(env, s, start, pieces[i], current, currentTokens, result, out, carried, added);
      out, carried, added := out + c.out, c.carried, c.added;
    }
    PackEnd(carried, added, env.limit, env.overlap, currentTokens);
    assert pieces[|pieces|..] == [];
    assert out + [] == out;
    if current != [] {
      result := result + [BuildChunk(env, s, start + |result|, Content(current))];
      BuildSnoc(env, s, start, out, Emission(carried, added, false));
      PiecesOf(carried, added, false);
    }
  }

  lemma PiecesOf(carried: seq<string>, added: seq<string>, hard: bool)
    ensures Emission(carried, added, hard).Pieces() == carried + added
  {}

  lemma BuildNone(env: Env, s: Outline.Section, start: nat)
    ensures BuildAll(env, s, start, []) == []
    ensures SectionChunks(env, s, start) == BuildAll(env, s, start, Emissions(env, s.content))
    ensures Emissions(env, s.content) == [] + Pack(env.pieces(s.content), env.limit, env.overlap, [], [], 0)
  {}

  lemma PackStep(pieces: seq<string>, limit: int, overlap: int, carried: seq<string>, added: seq<string>, tokens: nat)
    requires pieces != []
    ensures var c := TakePiece(pieces[0], limit, overlap, carried, added, tokens);
            Pack(pieces, limit, overlap, carried, added, tokens) ==
            c.out + Pack(pieces[1..], limit, overlap, c.carried, c.added, c.tokens)
  {
    hide TakePiece;
  }

  lemma PackEnd(carried: seq<string>, added: seq<string>, limit: int, overlap: int, tokens: nat)
    ensures Pack([], limit, overlap, carried, added, tokens) ==
            if carried + added == [] then [] else [Emission(carried, added, false)]
  {}

  /** The body of the piece loop. */
  method ChunkPiece(env: Env, s: Outline.Section, start: nat, piece: string,
                    current: seq<string>, currentTokens: nat, result: seq<Chunk>,
                    ghost out: seq<Emission>, ghost carried: seq<string>, ghost added: seq<string>)
    returns (result': seq<Chunk>, current': seq<string>, currentTokens': nat)
    requires current == carried + added && result == BuildAll(env, s, start, out)
    ensures var c := TakePiece(piece, env.limit, env.overlap, carried, added, currentTokens);
            && result' == BuildAll(env, s, start, out + c.out)
            && current' == c.carried + c.added && currentTokens' == c.tokens
  {
    hide CountTokens, BuildChunk, Content, TailOverlap, BuildAll, HardSplit, HardEmissions;
    result', current', currentTokens' := result, current, currentTokens;
    ghost var out' := out;
    var cost := CountTokens(piece);
    if current != [] && currentTokens + cost > env.limit {
      result' := result' + [BuildChunk(env, s, start + |result'|, Content(current))];
      BuildSnoc(env, s, start, out, Emission(carried, added, false));
      out' := out + [Emission(carried, added, false)];
      current' := SelectTail(current, env.overlap);
      currentTokens' := CountTokens(Content(current'));
    }
    if cost > env.limit {
      ghost var tail, hard := TailEmission(current'), HardEmissions(HardSplit(piece, env.limit));
      HardSplitIsNotEmpty(piece, env.limit);
      ghost var closed := if current != [] then [Emission(carried, added, false)] else [];
      assert out' == out + closed;
      result', out' := EmitHard(env, s, start, piece, current', result', out');
      Assoc(out + closed, tail, hard);
      Assoc(out, closed, tail + hard);
      Assoc(closed, tail, hard);
      return result', [], 0;
    }
    Assoc(carried, added, [piece]);
    current', currentTokens' := current' + [piece], currentTokens' + cost;
    assert out + [] == out;
  }

  lemma HardSplitIsNotEmpty(s: string, limit: int)
    requires CountTokens(s) > limit
    ensures HardSplit(s, limit) != []
  {
    TokensFit(s);
  }

  /** The inner loop over the slices of an oversized piece: a tail still pending is emitted
      on its own first. */
  method EmitHard(env: Env, s: Outline.Section, start: nat, piece: string, tail: seq<string>,
                  result: seq<Chunk>, ghost out: seq<Emission>)
    returns (result': seq<Chunk>, ghost out': seq<Emission>)
    requires HardSplit(piece, env.limit) != []
    requires result == BuildAll(env, s, start, out)
    ensures out' == (out + TailEmission(tail)) + HardEmissions(HardSplit(piece, env.limit))
    ensures result' == BuildAll(env, s, start, out')
  {
    hide *;
    var parts := HardSplit(piece, env.limit);
    var current := tail;
    result', out' := result, out;
    ghost var before := out + TailEmission(tail);
    TailEmissionCases(tail);
    HardSnoc([], "");
    assert before + [] == before && out + [] == out;
    for j := 0 to |parts|
      invariant current == if j == 0 then tail else []
      invariant out' == if j == 0 then out else before + HardEmissions(parts[..j])
      invariant result' == BuildAll(env, s, start, out')
    {
      if current != [] {
        PiecesOf(current, [], false);
        assert current + [] == current;
        result' := result' + [BuildChunk(env, s, start + |result'|, Content(current))];
        BuildSnoc(env, s, start, out', Emission(current, [], false));
        out' := out' + [Emission(current, [], false)];
        current := SelectTail(current, env.overlap);
      }
      assert out' == before + HardEmissions(parts[..j]);
      HardPiece(parts[j]);
      result' := result' + [BuildChunk(env, s, start + |result'|, parts[j])];
      BuildSnoc(env, s, start, out', Emission([], [parts[j]], true));
      out' := out' + [Emission([], [parts[j]], true)];
      HardSnoc(parts[..j], parts[j]);
      assert parts[..j] + [parts[j]] == parts[..j + 1];
      Assoc(before, HardEmissions(parts[..j]), [Emission([], [parts[j]], true)]);
      current := [];
    }
    assert parts[..|parts|] == parts;
  }

  lemma TailEmissionCases(tail: seq<string>)
    ensures TailEmission(tail) == if tail == [] then [] else [Emission(tail, [], false)]
  {}

  lemma HardPiece(p: string)
    ensures Content(Emission([], [p], true).Pieces()) == p
  {
    assert Emission([], [p], true).Pieces() == [p];
  }

  lemma HardSnoc(parts: seq<string>, p: string)
    ensures HardEmissions(parts + [p]) == HardEmissions(parts) + [Emission([], [p], true)]
    ensures parts == [] ==> HardEmissions(parts) == []
  {}

  /** `chunk_outline`: the sections one after the other, indices running through. */
  method ChunkAll(env: Env, sections: seq<Outline.Section>) returns (chunks: seq<Chunk>)
    ensures chunks == ChunkOutline(env, sections)
  {
    chunks := [];
    for i := 0 to |sections|
      invariant chunks == ChunkOutline(env, sections[..i])
    {
      var more := ChunkSection(env, sections[i], |chunks|);
      assert sections[..i + 1][..i] == sections[..i];
      chunks := chunks + more;
    }
    assert sections[..|sections|] == sections;
  }

  // ---------- the new pieces of the chunks are the pieces of the section ----------

  function Added(out: seq<Emission>): seq<string> {
    if out == [] then [] else Added(out[..|out| - 1]) + out[|out| - 1].added
  }

  lemma AddedSnoc(out: seq<Emission>, e: Emission)
    ensures Added(out + [e]) == Added(out) + e.added
  {
    assert (out + [e])[..|out|] == out;
  }

  lemma {:induction false} AddedAppend(a: seq<Emission>, b: seq<Emission>)
    ensures Added(a + b) == Added(a) + Added(b)
  {
    if b == [] {
      assert a + b == a;
    } else {
      var init, e := b[..|b| - 1], b[|b| - 1];
      AddedAppend(a, init);
      Assoc(a, init, [e]);
      assert b == init + [e];
      AddedSnoc(a + init, e);
      Assoc(Added(a), Added(init), e.added);
    }
  }

  lemma {:induction false} AddedHard(parts: seq<string>)
    ensures Added(HardEmissions(parts)) == parts
  {
    if parts != [] {
      var init, p := parts[..|parts| - 1], parts[|parts| - 1];
      assert parts == init + [p];
      AddedHard(init);
      HardSnoc(init, p);
      AddedSnoc(HardEmissions(init), Emission([], [p], true));
    }
  }

  /** A piece as it appears in chunks: itself, or its slices when it is oversized. */
  function Slices(p: string, limit: int): seq<string> {
    if CountTokens(p) > limit then HardSplit(p, limit) else [p]
  }

  function Expand(pieces: seq<string>, limit: int): seq<string> {
    if pieces == [] then [] else Slices(pieces[0], limit) + Expand(pieces[1..], limit)
  }

  lemma {:induction false} ExpandIs(a: seq<string>, p: string, b: seq<string>, limit: int)
    ensures Expand(a + [p] + b, limit) ==
            Expand(a, limit) + (if CountTokens(p) > limit then HardSplit(p, limit) else [p]) + Expand(b, limit)
  {
    hide CountTokens, HardSplit;
    var all := a + [p] + b;
    if a == [] {
      assert all[0] == p && all[1..] == b;
      assert Expand(a, limit) == [];
    } else {
      assert all[0] == a[0] && all[1..] == a[1..] + [p] + b;
      ExpandIs(a[1..], p, b, limit);
    }
  }

  lemma TakePieceCovers(p: string, limit: int, overlap: int, carried: seq<string>, added: seq<string>, tokens: nat)
    ensures var c := TakePiece(p, limit, overlap, carried, added, tokens);
            Added(c.out) + c.added == added + Slices(p, limit)
  {
    hide CountTokens, HardSplit, TailOverlap, HardEmissions, Added, Content;
    var cost, current := CountTokens(p), carried + added;
    var full := current != [] && tokens + cost > limit;
    var tail := if full then TailOverlap(current, overlap) else [];
    var closed := if full then [Emission(carried, added, false)] else [];
    AddedFirst(carried, added);
    if cost > limit {
      AddedAppend(closed, TailEmission(tail));
      AddedFirst(tail, []);
      AddedAppend(closed + TailEmission(tail), HardEmissions(HardSplit(p, limit)));
      AddedHard(HardSplit(p, limit));
      assert Added(closed) == added;
    }
  }

  lemma AddedFirst(carried: seq<string>, added: seq<string>)
    ensures Added([Emission(carried, added, false)]) == added
    ensures Added([]) == []
  {
    AddedSnoc([], Emission(carried, added, false));
    assert [] + [Emission(carried, added, false)] == [Emission(carried, added, false)];
  }

  /** Cover: the new pieces of the chunks, in order, are the pieces of the section, with an
      oversized piece appearing as its slices. */
  lemma {:induction false} PackCovers(pieces: seq<string>, limit: int, overlap: int,
                                      carried: seq<string>, added: seq<string>, tokens: nat)
    ensures Added(Pack(pieces, limit, overlap, carried, added, tokens)) == added + Expand(pieces, limit)
    decreases |pieces|
  {
    hide TakePiece, Slices;
    if pieces == [] {
      AddedFirst(carried, added);
    } else {
      var c := TakePiece(pieces[0], limit, overlap, carried, added, tokens);
      var rest := pieces[1..];
      PackCovers(rest, limit, overlap, c.carried, c.added, c.tokens);
      TakePieceCovers(pieces[0], limit, overlap, carried, added, tokens);
      AddedAppend(c.out, Pack(rest, limit, overlap, c.carried, c.added, c.tokens));
      Assoc(Added(c.out), c.added, Expand(rest, limit));
      Assoc(added, Slices(pieces[0], limit), Expand(rest, limit));
    }
  }

  lemma {:induction false} ExpandRejoins(pieces: seq<string>, limit: int)
    ensures Concat(Expand(pieces, limit)) == Concat(pieces)
  {
    if pieces != [] {
      ExpandRejoins(pieces[1..], limit);
      HardSplitRejoins(pieces[0], limit);
      ConcatAppend(Slices(pieces[0], limit), Expand(pieces[1..], limit));
    }
  }

  // ---------- each chunk starts with the tail of the one before ----------

  /** e2 comes right after e1: it starts with e1's tail, but with nothing around a hard split. */
  predicate Linked(e1: Emission, e2: Emission, overlap: int) {
    e2.overlap == if e1.hard || e2.hard then [] else TailOverlap(e1.Pieces(), overlap)
  }

  ghost predicate AllLinked(out: seq<Emission>, overlap: int) {
    forall j, k | 0 <= j < k < |out| && k == j + 1 :: Linked(out[j], out[k], overlap)
  }

  lemma LinkedAppend(a: seq<Emission>, b: seq<Emission>, overlap: int)
    requires AllLinked(a, overlap) && AllLinked(b, overlap)
    requires a != [] && b != [] ==> Linked(a[|a| - 1], b[0], overlap)
    ensures AllLinked(a + b, overlap)
  {
    hide Linked;
  }

  lemma TakePieceLinked(p: string, limit: int, overlap: int, carried: seq<string>, added: seq<string>, tokens: nat)
    ensures var c := TakePiece(p, limit, overlap, carried, added, tokens);
            && AllLinked(c.out, overlap)
            && (c.out == [] ==> c.carried == carried)
            && (c.out == [] && carried + added != [] ==> c.carried + c.added != [])
            && (c.out != [] ==> c.out[0].overlap == carried)
            && (c.out != [] && c.out[0].hard ==> carried + added == [])
            && (c.out != [] ==>
                  c.carried == if c.out[|c.out| - 1].hard then []
                               else TailOverlap(c.out[|c.out| - 1].Pieces(), overlap))
  {
    hide CountTokens, HardSplit, TailOverlap, Content;
    HardSplitNotEmptyFor(p, limit);
  }

  lemma HardSplitNotEmptyFor(p: string, limit: int)
    ensures CountTokens(p) > limit ==> HardSplit(p, limit) != []
  {
    TokensFit(p);
  }

  /** Every chunk starts with the overlap taken from the chunk right before it. */
  lemma {:induction false} PackLinked(pieces: seq<string>, limit: int, overlap: int,
                                      carried: seq<string>, added: seq<string>, tokens: nat)
    ensures var out := Pack(pieces, limit, overlap, carried, added, tokens);
            && AllLinked(out, overlap)
            && (out != [] ==> out[0].overlap == carried && (out[0].hard ==> carried + added == []))
    decreases |pieces|
  {
    hide TakePiece, TailOverlap;
    if pieces != [] {
      var c := TakePiece(pieces[0], limit, overlap, carried, added, tokens);
      PackLinked(pieces[1..], limit, overlap, c.carried, c.added, c.tokens);
      TakePieceLinked(pieces[0], limit, overlap, carried, added, tokens);
      LinkedAppend(c.out, Pack(pieces[1..], limit, overlap, c.carried, c.added, c.tokens), overlap);
    }
  }

  // ---------- no chunk is closed early ----------

  /** The loop's token counter for gathered pieces. */
  function Counter(carried: seq<string>, added: seq<string>): nat {
    CountTokens(Content(carried)) + SumTokens(added)
  }

  /** e1 was closed because the first new piece of e2 would not fit any more, or because of a
      piece that is too big for any chunk. */
  predicate Tight(e1: Emission, e2: Emission, limit: int) {
    || e1.hard || e2.hard || e2.added == []
    || Counter(e1.overlap, e1.added) + CountTokens(e2.added[0]) > limit
  }

  ghost predicate AllTight(out: seq<Emission>, limit: int) {
    forall j, k | 0 <= j < k < |out| && k == j + 1 :: Tight(out[j], out[k], limit)
  }

  lemma TightAppend(a: seq<Emission>, b: seq<Emission>, limit: int)
    requires AllTight(a, limit) && AllTight(b, limit)
    requires a != [] && b != [] ==> Tight(a[|a| - 1], b[0], limit)
    ensures AllTight(a + b, limit)
  {
    hide Tight;
  }

  lemma CounterStart()
    ensures Counter([], []) == 0
  {}

  /** One piece: the counter stays right, and what is closed is closed for a reason. */
  lemma TakePieceTight(p: string, limit: int, overlap: int, carried: seq<string>, added: seq<string>, tokens: nat)
    requires tokens == Counter(carried, added)
    ensures var c := TakePiece(p, limit, overlap, carried, added, tokens);
            && AllTight(c.out, limit)
            && c.tokens == Counter(c.carried, c.added)
            && (c.out == [] ==> c.carried == carried && added <= c.added)
            && (c.out != [] && !c.out[|c.out| - 1].hard ==>
                  && c.out == [Emission(carried, added, false)]
                  && c.added == [p] && tokens + CountTokens(p) > limit)
            && (c.out != [] && carried + added != [] ==> c.out[0] == Emission(carried, added, false))
  {
    hide CountTokens, HardSplit, TailOverlap, Content, SumTokens;
    HardSplitNotEmptyFor(p, limit);
    CounterStart();
    SumSingle(p);
    SumTokensSnoc(added, p);
  }

  /** Greedy: a chunk is closed only when the next piece would exceed the limit. */
  lemma {:induction false} PackTight(pieces: seq<string>, limit: int, overlap: int,
                                     carried: seq<string>, added: seq<string>, tokens: nat)
    requires tokens == Counter(carried, added)
    ensures var out := Pack(pieces, limit, overlap, carried, added, tokens);
            && AllTight(out, limit)
            && (out != [] && carried + added != [] ==> !out[0].hard && added <= out[0].added)
    decreases |pieces|
  {
    hide TakePiece, Counter, Tight;
    if pieces != [] {
      var c := TakePiece(pieces[0], limit, overlap, carried, added, tokens);
      var rest := Pack(pieces[1..], limit, overlap, c.carried, c.added, c.tokens);
      TakePieceTight(pieces[0], limit, overlap, carried, added, tokens);
      PackTight(pieces[1..], limit, overlap, c.carried, c.added, c.tokens);
      if c.out != [] && rest != [] {
        BoundaryTight(c.out[|c.out| - 1], rest[0], pieces[0], limit);
      }
      TightAppend(c.out, rest, limit);
    }
  }

  lemma BoundaryTight(e1: Emission, e2: Emission, p: string, limit: int)
    requires !e1.hard ==> [p] <= e2.added && Counter(e1.overlap, e1.added) + CountTokens(p) > limit
    ensures Tight(e1, e2, limit)
  {
    hide Counter, CountTokens;
    if !e1.hard {
      assert e2.added[0] == p;
    }
  }

  // ---------- no chunk is filled beyond the limit by choice ----------

  /** A piece joins others, or a pending tail, only if the limit still holds; a slice of an
      oversized piece stands alone; a tail alone is emitted only before such a slice. */
  predicate Snug(out: seq<Emission>, k: nat, limit: int)
    requires k < |out|
  {
    var e := out[k];
    if e.hard then e.overlap == [] && |e.added| == 1
    else if e.added == [] then e.overlap != [] && k + 1 < |out| && out[k + 1].hard
    else (|e.added| == 1 && e.overlap != []) || Counter(e.overlap, e.added) <= limit
  }

  ghost predicate AllSnug(out: seq<Emission>, limit: int) {
    forall k: nat | k < |out| :: Snug(out, k, limit)
  }

  lemma SnugAppend(a: seq<Emission>, b: seq<Emission>, limit: int)
    requires AllSnug(a, limit) && AllSnug(b, limit)
    ensures AllSnug(a + b, limit)
  {
    hide Counter;
    forall k: nat | k < |a + b| ensures Snug(a + b, k, limit) {
      if k < |a| {
        assert Snug(a, k, limit);
      } else {
        assert Snug(b, k - |a|, limit);
      }
    }
  }

  /** The gathered pieces would make a snug chunk if it were closed now. */
  predicate SnugSoFar(carried: seq<string>, added: seq<string>, limit: int) {
    if added == [] then carried == []
    else (|added| == 1 && carried != []) || Counter(carried, added) <= limit
  }

  lemma SnugHard(parts: seq<string>, tail: seq<string>, limit: int)
    requires parts != []
    ensures AllSnug(TailEmission(tail) + HardEmissions(parts), limit)
  {}

  lemma SnugClosed(carried: seq<string>, added: seq<string>, limit: int)
    requires SnugSoFar(carried, added, limit)
    ensures carried + added != [] ==> AllSnug([Emission(carried, added, false)], limit)
    ensures AllSnug([], limit)
  {
    hide Counter;
  }

  lemma TakePieceSnug(p: string, limit: int, overlap: int, carried: seq<string>, added: seq<string>, tokens: nat)
    requires tokens == Counter(carried, added) && SnugSoFar(carried, added, limit)
    ensures var c := TakePiece(p, limit, overlap, carried, added, tokens);
            AllSnug(c.out, limit) && SnugSoFar(c.carried, c.added, limit)
  {
    hide CountTokens, HardSplit, TailOverlap, Content, SumTokens, AllSnug;
    HardSplitNotEmptyFor(p, limit);
    CounterStart();
    SumSingle(p);
    SumTokensSnoc(added, p);
    SnugClosed(carried, added, limit);
    var cost, current := CountTokens(p), carried + added;
    var full := current != [] && tokens + cost > limit;
    var tail := if full then TailOverlap(current, overlap) else [];
    var closed := if full then [Emission(carried, added, false)] else [];
    if cost > limit {
      SnugHard(HardSplit(p, limit), tail, limit);
      Assoc(closed, TailEmission(tail), HardEmissions(HardSplit(p, limit)));
      SnugAppend(closed, TailEmission(tail) + HardEmissions(HardSplit(p, limit)), limit);
    }
  }

  lemma {:induction false} PackSnug(pieces: seq<string>, limit: int, overlap: int,
                                    carried: seq<string>, added: seq<string>, tokens: nat)
    requires tokens == Counter(carried, added) && SnugSoFar(carried, added, limit)
    ensures AllSnug(Pack(pieces, limit, overlap, carried, added, tokens), limit)
    decreases |pieces|
  {
    hide TakePiece, Counter, AllSnug, SnugSoFar, Snug;
    if pieces == [] {
      SnugClosed(carried, added, limit);
    } else {
      var c := TakePiece(pieces[0], limit, overlap, carried, added, tokens);
      TakePieceSnug(pieces[0], limit, overlap, carried, added, tokens);
      TakePieceTight(pieces[0], limit, overlap, carried, added, tokens);
      PackSnug(pieces[1..], limit, overlap, c.carried, c.added, c.tokens);
      SnugAppend(c.out, Pack(pieces[1..], limit, overlap, c.carried, c.added, c.tokens), limit);
    }
  }

  /** The slice of a hard emission is cut from a piece with more tokens than the limit. */
  ghost predicate Oversized(slice: string, pieces: seq<string>, limit: int) {
    exists j: nat :: j < |pieces| && CountTokens(pieces[j]) > limit && slice in HardSplit(pieces[j], limit)
  }

  ghost predicate AllOversized(out: seq<Emission>, pieces: seq<string>, limit: int) {
    forall k: nat | k < |out| && out[k].hard :: out[k].added != [] && Oversized(out[k].added[0], pieces, limit)
  }

  lemma TakePieceOversized(pieces: seq<string>, limit: int, overlap: int,
                           carried: seq<string>, added: seq<string>, tokens: nat)
    requires pieces != []
    ensures AllOversized(TakePiece(pieces[0], limit, overlap, carried, added, tokens).out, pieces, limit)
  {
    hide CountTokens, HardSplit, TailOverlap, Content, Oversized;
    if CountTokens(pieces[0]) > limit {
      var parts := HardSplit(pieces[0], limit);
      forall k: nat | k < |parts| ensures Oversized(parts[k], pieces, limit) {
        OversizedFirst(parts[k], pieces, limit);
      }
    }
  }

  lemma OversizedFirst(slice: string, pieces: seq<string>, limit: int)
    requires pieces != [] && CountTokens(pieces[0]) > limit && slice in HardSplit(pieces[0], limit)
    ensures Oversized(slice, pieces, limit)
  {
    hide CountTokens, HardSplit;
    var first: nat := 0;
    assert CountTokens(pieces[first]) > limit;
  }

  lemma OversizedTail(slice: string, pieces: seq<string>, limit: int)
    requires pieces != [] && Oversized(slice, pieces[1..], limit)
    ensures Oversized(slice, pieces, limit)
  {
    hide CountTokens, HardSplit;
    var j: nat :| j < |pieces[1..]| && CountTokens(pieces[1..][j]) > limit && slice in HardSplit(pieces[1..][j], limit);
    assert pieces[1..][j] == pieces[j + 1];
  }

  lemma {:induction false} PackOversized(pieces: seq<string>, limit: int, overlap: int,
                                         carried: seq<string>, added: seq<string>, tokens: nat)
    ensures AllOversized(Pack(pieces, limit, overlap, carried, added, tokens), pieces, limit)
    decreases |pieces|
  {
    hide TakePiece, Oversized;
    if pieces != [] {
      var c := TakePiece(pieces[0], limit, overlap, carried, added, tokens);
      var rest := Pack(pieces[1..], limit, overlap, c.carried, c.added, c.tokens);
      TakePieceOversized(pieces, limit, overlap, carried, added, tokens);
      PackOversized(pieces[1..], limit, overlap, c.carried, c.added, c.tokens);
      forall k: nat | k < |rest| && rest[k].hard ensures Oversized(rest[k].added[0], pieces, limit) {
        OversizedTail(rest[k].added[0], pieces, limit);
      }
    }
  }

  /** Greedy in both directions: a chunk is closed only for a piece that does not fit, no piece
      is added that does not fit, and only oversized pieces are cut. */
  lemma SectionChunksAreTight(env: Env, content: string)
    ensures AllTight(Emissions(env, content), env.limit)
    ensures AllSnug(Emissions(env, content), env.limit)
    ensures AllOversized(Emissions(env, content), env.pieces(content), env.limit)
  {
    CounterStart();
    hide Counter;
    PackTight(env.pieces(content), env.limit, env.overlap, [], [], 0);
    PackSnug(env.pieces(content), env.limit, env.overlap, [], [], 0);
    PackOversized(env.pieces(content), env.limit, env.overlap, [], [], 0);
  }

  // ---------- how big a chunk gets ----------

  /** How many piece tokens a chunk may gather. */
  predicate Fits(tokens: nat, limit: int, overlap: int) {
    if overlap <= 0 then tokens <= limit else tokens < 2 * limit + overlap
  }

  predicate AllFit(out: seq<Emission>, limit: int, overlap: int) {
    forall k | 0 <= k < |out| ::
      out[k].Pieces() != [] && Fits(SumTokens(out[k].Pieces()), limit, overlap)
  }

  predicate AllSmall(pieces: seq<string>, limit: int) {
    forall k | 0 <= k < |pieces| :: CountTokens(pieces[k]) <= limit
  }

  lemma SumSingle(p: string)
    ensures SumTokens([p]) == CountTokens(p)
  {
    SumTokensSnoc([], p);
    assert [] + [p] == [p];
  }

  lemma TailIsSmall(pieces: seq<string>, limit: int, overlap: int)
    requires limit > 0 && AllSmall(pieces, limit)
    ensures AllSmall(TailOverlap(pieces, overlap), limit)
    ensures SumTokens(TailOverlap(pieces, overlap)) < limit + (if overlap <= 0 then 0 else overlap)
    ensures overlap <= 0 ==> TailOverlap(pieces, overlap) == []
  {
    hide CountTokens;
    var i := TailStart(pieces, overlap);
    if overlap > 0 && i < |pieces| {
      TailIsShortest(pieces, overlap);
      assert pieces[i..] == [pieces[i]] + pieces[i + 1..];
      SumTokensAppend([pieces[i]], pieces[i + 1..]);
      SumSingle(pieces[i]);
    } else if overlap > 0 {
      assert pieces[i..] == [];
    }
  }

  lemma HardFit(p: string, limit: int, overlap: int)
    requires limit > 0
    ensures AllFit(HardEmissions(HardSplit(p, limit)), limit, overlap)
  {
    hide CountTokens, HardSplit, SumTokens;
    HardSplitRejoins(p, limit);
    var parts := HardSplit(p, limit);
    var out := HardEmissions(parts);
    forall k | 0 <= k < |out|
      ensures out[k].Pieces() != [] && Fits(SumTokens(out[k].Pieces()), limit, overlap)
    {
      assert out[k].Pieces() == [parts[k]];
      SumSingle(parts[k]);
    }
  }

  /** What is gathered between two pieces. */
  predicate Gathered(carried: seq<string>, added: seq<string>, tokens: nat, limit: int, overlap: int) {
    && AllSmall(carried + added, limit)
    && SumTokens(carried + added) <= tokens
    && Fits(SumTokens(carried + added), limit, overlap)
  }

  lemma TakePieceFits(p: string, limit: int, overlap: int, carried: seq<string>, added: seq<string>, tokens: nat)
    requires limit > 0 && Gathered(carried, added, tokens, limit, overlap)
    ensures var c := TakePiece(p, limit, overlap, carried, added, tokens);
            AllFit(c.out, limit, overlap) && Gathered(c.carried, c.added, c.tokens, limit, overlap)
  {
    hide CountTokens, HardSplit, TailOverlap, Content, HardEmissions, SumTokens;
    var cost, current := CountTokens(p), carried + added;
    var full := current != [] && tokens + cost > limit;
    var tail := TailOverlap(current, overlap);
    var none: seq<string> := [];
    assert none + none == none && tail + none == tail;
    SumOfNone();
    if full {
      TailIsSmall(current, limit, overlap);
    }
    if cost > limit {
      HardFit(p, limit, overlap);
    } else if full {
      SumTokensSnoc(tail, p);
      JoinTokens(tail);
    } else {
      SumTokensSnoc(current, p);
      assert carried + (added + [p]) == current + [p];
    }
  }

  lemma SumOfNone()
    ensures SumTokens([]) == 0
  {}

  /** Size: with a positive limit no chunk gathers more piece tokens than `Fits` allows. */
  lemma {:induction false} PackFits(pieces: seq<string>, limit: int, overlap: int,
                                    carried: seq<string>, added: seq<string>, tokens: nat)
    requires limit > 0 && Gathered(carried, added, tokens, limit, overlap)
    ensures AllFit(Pack(pieces, limit, overlap, carried, added, tokens), limit, overlap)
    decreases |pieces|
  {
    hide TakePiece, SumTokens, AllSmall;
    if pieces != [] {
      var c := TakePiece(pieces[0], limit, overlap, carried, added, tokens);
      TakePieceFits(pieces[0], limit, overlap, carried, added, tokens);
      PackFits(pieces[1..], limit, overlap, c.carried, c.added, c.tokens);
    }
  }

  lemma NothingGathered(limit: int, overlap: int)
    requires limit > 0
    ensures Gathered([], [], 0, limit, overlap)
  {
    var none: seq<string> := [];
    assert none + none == none;
  }

  // ---------- the chunks of a section and of a document ----------

  /** Cover and overlap, for the chunks of one section. */
  lemma SectionChunksCover(env: Env, s: Outline.Section, start: nat)
    ensures var out := Emissions(env, s.content);
            var chunks := SectionChunks(env, s, start);
            && |chunks| == |out|
            && Added(out) == Expand(env.pieces(s.content), env.limit)
            && Concat(Added(out)) == Concat(env.pieces(s.content))
            && AllLinked(out, env.overlap)
            && (out != [] ==> out[0].overlap == [])
            && forall k | 0 <= k < |chunks| ::
                 && chunks[k].content == Strip(Join(out[k].overlap + out[k].added, "\n\n"))
                 && chunks[k].index == start + k
                 && chunks[k].tokens == CountTokens(chunks[k].content)
                 && chunks[k].contentType == env.contentType(chunks[k].content)
                 && chunks[k].sha256 == env.sha256(chunks[k].content)
                 && chunks[k].path == s.path && chunks[k].sectionId == s.id
                 && chunks[k].pageStart == s.pageStart && chunks[k].pageEnd == s.pageEnd
  {
    hide Pack, AllLinked, Expand, Concat, CountTokens, Strip, Join;
    var pieces := env.pieces(s.content);
    PackCovers(pieces, env.limit, env.overlap, [], [], 0);
    ExpandRejoins(pieces, env.limit);
    PackLinked(pieces, env.limit, env.overlap, [], [], 0);
    assert [] + Expand(pieces, env.limit) == Expand(pieces, env.limit);
  }

  /** Size bound of the stored chunks: the pieces of a chunk carry at most `limit` tokens
      without overlap and less than 2 * limit + overlap with it; the stored count exceeds
      their sum by at most (5n - 2) / 4 for n pieces. */
  lemma StoredTokensBound(env: Env, s: Outline.Section, start: nat, k: nat)
    requires env.limit > 0 && k < |SectionChunks(env, s, start)|
    ensures var pieces := Emissions(env, s.content)[k].Pieces();
            && pieces != []
            && Fits(SumTokens(pieces), env.limit, env.overlap)
            && SectionChunks(env, s, start)[k].tokens <= SumTokens(pieces) + (5 * |pieces| - 2) / 4
  {
    hide Pack, CountTokens, Strip, Content, SumTokens;
    NothingGathered(env.limit, env.overlap);
    PackFits(env.pieces(s.content), env.limit, env.overlap, [], [], 0);
    var pieces := Emissions(env, s.content)[k].Pieces();
    JoinTokens(pieces);
    StripTokens(Content(pieces));
  }

  /** The chunks of section i stand right after those of the sections before it, and nothing
      else is there. */
  lemma {:induction false} SectionsInOrder(env: Env, sections: seq<Outline.Section>, i: nat)
    requires i < |sections|
    ensures var all, start := ChunkOutline(env, sections), |ChunkOutline(env, sections[..i])|;
            var more := SectionChunks(env, sections[i], start);
            && start + |more| <= |all| && all[start..start + |more|] == more
            && (i == 0 ==> start == 0)
            && (i == |sections| - 1 ==> start + |more| == |all|)
  {
    hide SectionChunks;
    var n := |sections| - 1;
    if i < n {
      SectionsInOrder(env, sections[..n], i);
      assert sections[..n][..i] == sections[..i];
    }
  }

  /** Chunks are numbered 0, 1, 2, ... across all sections. */
  lemma {:induction false} ChunksAreNumbered(env: Env, sections: seq<Outline.Section>)
    ensures forall i | 0 <= i < |ChunkOutline(env, sections)| :: ChunkOutline(env, sections)[i].index == i
  {
    hide Emissions;
    if sections != [] {
      ChunksAreNumbered(env, sections[..|sections| - 1]);
    }
  }
}
