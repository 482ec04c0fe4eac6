/** From fused ids to citations: loading the chunks, keeping the best per place, and deciding
    whether to answer. */
module Candidates {
  import opened Wrappers
  import opened Text
  import opened Sorting
  import opened Fusion

  datatype Row = Row(doc: Id, path: seq<string>, page: Option<int>)
  datatype Candidate = Candidate(id: Id, row: Row, score: real)
  datatype Citation = Citation(index: nat, candidate: Candidate)

  /** The place a candidate comes from. */
  datatype Place = Place(doc: Id, path: string, page: Option<int>)

  function PlaceOf(c: Candidate): Place {
    Place(c.row.doc, Join(c.row.path, "/"), c.row.page)
  }

  predicate Better(x: Candidate, y: Candidate) {
    x.score >= y.score
  }

  lemma BetterPreorder()
    ensures TotalPreorder(Better)
  {}

  // ---------- loading ----------

  /** The chunks found for the fused ids, each with its fused score. */
  function Loaded(fused: seq<Scored>, rows: map<Id, Row>): seq<Candidate> {
    if fused == [] then []
    else
      var n := |fused| - 1;
      Loaded(fused[..n], rows) +
      if fused[n].id in rows then [Candidate(fused[n].id, rows[fused[n].id], fused[n].score)] else []
  }

  function Materialized(fused: seq<Scored>, rows: map<Id, Row>): seq<Candidate> {
    Sort(Better, Loaded(fused, rows))
  }

  lemma {:induction false} LoadedIs(fused: seq<Scored>, rows: map<Id, Row>)
    ensures Loaded(fused, rows) != [] <==> exists i :: 0 <= i < |fused| && fused[i].id in rows
    ensures forall c | c in Loaded(fused, rows) :: Scored(c.id, c.score) in fused
  {
    if fused != [] {
      var n := |fused| - 1;
      LoadedIs(fused[..n], rows);
      if Loaded(fused[..n], rows) != [] {
        var i :| 0 <= i < n && fused[..n][i].id in rows;
        assert fused[i].id in rows;
      }
      if i :| 0 <= i < |fused| && fused[i].id in rows {
        if i < n {
          assert fused[..n][i].id in rows;
        }
      }
    }
  }

  /** Every fused id with a row is loaded with it and its score, and nothing else is. */
  lemma {:induction false} LoadedRows(fused: seq<Scored>, rows: map<Id, Row>, c: Candidate)
    ensures c in Loaded(fused, rows) <==> Scored(c.id, c.score) in fused && c.id in rows && c.row == rows[c.id]
  {
    if fused != [] {
      var n := |fused| - 1;
      LoadedRows(fused[..n], rows, c);
      assert fused == fused[..n] + [fused[n]];
    }
  }

  // ---------- the best per place ----------

  function PlaceIn(kept: seq<Candidate>, p: Place): (i: nat)
    ensures i <= |kept| && (i < |kept| ==> PlaceOf(kept[i]) == p)
    ensures forall k | 0 <= k < i :: PlaceOf(kept[k]) != p
  {
    if kept == [] then 0
    else
      var n := |kept| - 1;
      var i := PlaceIn(kept[..n], p);
      if i < n then i else if PlaceOf(kept[n]) == p then n else n + 1
  }

  /** The dictionary of the best so far, in insertion order. */
  function Keep(kept: seq<Candidate>, c: Candidate): seq<Candidate> {
    var i := PlaceIn(kept, PlaceOf(c));
    if i == |kept| then kept + [c]
    else if c.score > kept[i].score then kept[i := c]
    else kept
  }

  function BestPerPlace(candidates: seq<Candidate>): seq<Candidate> {
    if candidates == [] then []
    else Keep(BestPerPlace(candidates[..|candidates| - 1]), candidates[|candidates| - 1])
  }

  /** Some entry for the place of c scores at least as much. */
  ghost predicate Covered(kept: seq<Candidate>, c: Candidate) {
    exists i :: 0 <= i < |kept| && PlaceOf(kept[i]) == PlaceOf(c) && kept[i].score >= c.score
  }

  lemma KeepCovers(kept: seq<Candidate>, c: Candidate, other: Candidate)
    ensures Covered(Keep(kept, c), c)
    ensures Covered(kept, other) ==> Covered(Keep(kept, c), other)
  {
    hide PlaceIn, PlaceOf;
    var i, now := PlaceIn(kept, PlaceOf(c)), Keep(kept, c);
    if i == |kept| {
      assert now[i] == c;
    } else {
      assert PlaceOf(now[i]) == PlaceOf(c) && now[i].score >= c.score;
    }
    if Covered(kept, other) {
      var k :| 0 <= k < |kept| && PlaceOf(kept[k]) == PlaceOf(other) && kept[k].score >= other.score;
      assert PlaceOf(now[k]) == PlaceOf(other) && now[k].score >= other.score;
    }
  }

  /** One entry per place, from the candidates, and as good as any of them. */
  lemma {:induction false} BestPerPlaceIs(candidates: seq<Candidate>)
    ensures var best := BestPerPlace(candidates);
            && DistinctBy(PlaceOf, best)
            && (forall i | 0 <= i < |best| :: best[i] in candidates)
            && (forall j | 0 <= j < |candidates| :: Covered(best, candidates[j]))
            && (candidates != [] ==> best != [])
  {
    hide PlaceIn, PlaceOf, Covered;
    if candidates != [] {
      var n := |candidates| - 1;
      var before, c := BestPerPlace(candidates[..n]), candidates[n];
      BestPerPlaceIs(candidates[..n]);
      forall j | 0 <= j < |candidates|
        ensures Covered(Keep(before, c), candidates[j])
      {
        if j < n {
          assert Covered(before, candidates[..n][j]);
        }
        KeepCovers(before, c, candidates[j]);
      }
    }
  }

  // ---------- dedupe_citations ----------

  function TopPlaces(candidates: seq<Candidate>, k: nat): seq<Candidate> {
    Take(Sort(Better, BestPerPlace(candidates)), k)
  }

  function Cite(top: seq<Candidate>): (r: seq<Citation>)
    ensures |r| == |top|
  {
    seq(|top|, i requires 0 <= i < |top| => Citation(i + 1, top[i]))
  }

  method DedupeCitations(candidates: seq<Candidate>, k: nat) returns (citations: seq<Citation>)
    ensures citations == Cite(TopPlaces(candidates, k))
  {
    hide PlaceIn, PlaceOf, Sort;
    var seen: seq<Candidate> := [];
    for n := 0 to |candidates|
      invariant seen == BestPerPlace(candidates[..n])
    {
      var r := candidates[n];
      assert candidates[..n + 1][..n] == candidates[..n];
      var i := PlaceIn(seen, PlaceOf(r));
      if i == |seen| {
        seen := seen + [r];
      } else if r.score > seen[i].score {
        seen := seen[i := r];
      }
    }
    assert candidates[..|candidates|] == candidates;
    var unique := Take(Sort(Better, seen), k);
    citations := [];
    for idx := 0 to |unique|
      invariant |citations| == idx
      invariant forall i | 0 <= i < idx :: citations[i] == Citation(i + 1, unique[i])
    {
      citations := citations + [Citation(idx + 1, unique[idx])];
    }
  }

  /** The sorted entries: one per place, from the candidates, covering them all. */
  lemma SortedPlaces(candidates: seq<Candidate>)
    ensures var all := Sort(Better, BestPerPlace(candidates));
            && DistinctBy(PlaceOf, all) && Sorted(Better, all)
            && (forall i | 0 <= i < |all| :: all[i] in candidates)
            && (forall j | 0 <= j < |candidates| :: Covered(all, candidates[j]))
  {
    hide PlaceOf, Sort, TotalPreorder, BestPerPlace, DistinctBy, Sorted, Covered;
    var best := BestPerPlace(candidates);
    BestPerPlaceIs(candidates);
    BetterPreorder();
    SortSorts(Better, best);
    SortDistinct(Better, PlaceOf, best);
    var all := Sort(Better, best);
    forall i | 0 <= i < |all|
      ensures all[i] in candidates
    {
      MemberOf(Better, best, all[i]);
      assert all[i] in all;
    }
    forall j | 0 <= j < |candidates|
      ensures Covered(all, candidates[j])
    {
      var i := CoveredAt(best, candidates[j]);
      MemberOf(Better, best, best[i]);
      assert best[i] in all;
      var m :| 0 <= m < |all| && all[m] == best[i];
      CoveredBy(all, candidates[j], m);
    }
  }

  lemma CoveredBy(kept: seq<Candidate>, c: Candidate, i: nat)
    requires i < |kept| && PlaceOf(kept[i]) == PlaceOf(c) && kept[i].score >= c.score
    ensures Covered(kept, c)
  {}

  /** The citations are the top k of the best per place: places differ, scores fall, every one
      is the best candidate of its place, and a candidate whose place is missing scores no more
      than any citation. */
  lemma DedupeIsTopK(candidates: seq<Candidate>, k: nat)
    ensures var top := TopPlaces(candidates, k);
            && |top| <= k && DistinctBy(PlaceOf, top) && Sorted(Better, top)
            && (forall i | 0 <= i < |top| :: top[i] in candidates)
            && (forall i, j | 0 <= i < |top| && 0 <= j < |candidates| && PlaceOf(candidates[j]) == PlaceOf(top[i]) ::
                  candidates[j].score <= top[i].score)
            && (forall j | 0 <= j < |candidates| ::
                  Covered(top, candidates[j]) ||
                  (|top| == k && forall i | 0 <= i < |top| :: top[i].score >= candidates[j].score))
  {
    hide PlaceOf, Sort, BestPerPlace, Covered;
    SortedPlaces(candidates);
    var all, top := Sort(Better, BestPerPlace(candidates)), TopPlaces(candidates, k);
    forall i, j | 0 <= i < |top| && 0 <= j < |candidates| && PlaceOf(candidates[j]) == PlaceOf(top[i])
      ensures candidates[j].score <= top[i].score
    {
      var m := CoveredAt(all, candidates[j]);
      assert m == i;
    }
    forall j | 0 <= j < |candidates|
      ensures Covered(top, candidates[j]) || (|top| == k && forall i | 0 <= i < |top| :: top[i].score >= candidates[j].score)
    {
      var m := CoveredAt(all, candidates[j]);
      if m < |top| {
        CoveredBy(top, candidates[j], m);
      } else {
        forall i | 0 <= i < |top|
          ensures top[i].score >= candidates[j].score
        {
          assert Better(all[i], all[m]);
        }
      }
    }
  }

  /** Position m holds the first of the candidates of its place with the best score. */
  ghost predicate FirstBestAt(candidates: seq<Candidate>, c: Candidate, m: nat) {
    && m < |candidates| && candidates[m] == c
    && forall j | 0 <= j < m && PlaceOf(candidates[j]) == PlaceOf(c) :: candidates[j].score < c.score
  }

  ghost predicate FirstBest(candidates: seq<Candidate>, c: Candidate) {
    exists m :: FirstBestAt(candidates, c, m)
  }

  lemma {:induction false} BestAreFirst(candidates: seq<Candidate>)
    ensures forall i | 0 <= i < |BestPerPlace(candidates)| :: FirstBest(candidates, BestPerPlace(candidates)[i])
  {
    hide PlaceIn, PlaceOf, FirstBest;
    if candidates != [] {
      var n := |candidates| - 1;
      var before, c := BestPerPlace(candidates[..n]), candidates[n];
      BestAreFirst(candidates[..n]);
      BestPerPlaceIs(candidates[..n]);
      var now, p := Keep(before, c), PlaceIn(before, PlaceOf(c));
      forall i | 0 <= i < |now| ensures FirstBest(candidates, now[i]) {
        if i < |before| && now[i] == before[i] {
          FirstBestMore(candidates, n, before[i]);
        } else {
          assert forall x | x in candidates[..n] :: Covered(before, x);
          LastIsBest(candidates, before);
        }
      }
    }
  }

  lemma FirstBestMore(candidates: seq<Candidate>, n: nat, c: Candidate)
    requires n <= |candidates| && FirstBest(candidates[..n], c)
    ensures FirstBest(candidates, c)
  {
    hide PlaceOf;
    var m :| FirstBestAt(candidates[..n], c, m);
    forall j | 0 <= j < m && PlaceOf(candidates[j]) == PlaceOf(c) ensures candidates[j].score < c.score {
      assert candidates[..n][j] == candidates[j];
    }
    assert FirstBestAt(candidates, c, m);
  }

  /** A candidate that replaces the entry of its place, or has none to replace. */
  lemma LastIsBest(candidates: seq<Candidate>, before: seq<Candidate>)
    requires candidates != []
    requires var c := candidates[|candidates| - 1];
             PlaceIn(before, PlaceOf(c)) < |before| ==> c.score > before[PlaceIn(before, PlaceOf(c))].score
    requires DistinctBy(PlaceOf, before)
    requires forall x | x in candidates[..|candidates| - 1] :: Covered(before, x)
    ensures FirstBest(candidates, candidates[|candidates| - 1])
  {
    hide Covered, PlaceOf;
    var n: nat := |candidates| - 1;
    var c := candidates[n];
    forall j | 0 <= j < n && PlaceOf(candidates[j]) == PlaceOf(c) ensures candidates[j].score < c.score {
      assert candidates[j] in candidates[..n];
      BelowEntry(before, candidates[j], c);
    }
    assert FirstBestAt(candidates, c, n);
  }

  lemma BelowEntry(before: seq<Candidate>, other: Candidate, c: Candidate)
    requires Covered(before, other) && PlaceOf(other) == PlaceOf(c) && DistinctBy(PlaceOf, before)
    requires PlaceIn(before, PlaceOf(c)) < |before| ==> c.score > before[PlaceIn(before, PlaceOf(c))].score
    ensures other.score < c.score
  {
    hide PlaceOf;
    var i := CoveredAt(before, other);
    hide PlaceIn;
    assert PlaceIn(before, PlaceOf(c)) <= i;
  }

  predicate SamePlace(a: Candidate, b: Candidate) {
    a.row.doc == b.row.doc && a.row.page == b.row.page && Join(a.row.path, "/") == Join(b.row.path, "/")
  }

  /** Position m holds c, none of its place scores more, and none before it as much. */
  ghost predicate ChosenAt(candidates: seq<Candidate>, c: Candidate, m: nat) {
    && m < |candidates| && candidates[m] == c
    && forall j | 0 <= j < |candidates| && SamePlace(candidates[j], c) ::
         if j < m then candidates[j].score < c.score else candidates[j].score <= c.score
  }

  ghost predicate Chosen(candidates: seq<Candidate>, c: Candidate) {
    exists m :: ChosenAt(candidates, c, m)
  }

  /** The citations, said of the candidates: numbered from 1, best first, one for each document,
      section path and page, each the first best candidate there; and at most k. */
  lemma CitationsAre(candidates: seq<Candidate>, k: nat)
    ensures var r := Cite(TopPlaces(candidates, k));
            && |r| <= k
            && (forall i | 0 <= i < |r| :: r[i].index == i + 1)
            && (forall i, j | 0 <= i < j < |r| ::
                  && !SamePlace(r[i].candidate, r[j].candidate)
                  && r[i].candidate.score >= r[j].candidate.score)
            && (forall i | 0 <= i < |r| :: Chosen(candidates, r[i].candidate))
            && (forall c | c in candidates ::
                  || (exists i :: 0 <= i < |r| && SamePlace(r[i].candidate, c))
                  || (|r| == k && forall i | 0 <= i < |r| :: r[i].candidate.score >= c.score))
  {
    var top, r := TopPlaces(candidates, k), Cite(TopPlaces(candidates, k));
    DedupeIsTopK(candidates, k);
    hide PlaceOf, SamePlace, TopPlaces, Covered, Chosen;
    forall i, j | 0 <= i < j < |r|
      ensures !SamePlace(r[i].candidate, r[j].candidate) && r[i].candidate.score >= r[j].candidate.score
    {
      PlacesAre(top[i], top[j]);
      assert Better(top[i], top[j]);
    }
    forall i | 0 <= i < |r|
      ensures Chosen(candidates, r[i].candidate)
    {
      TopIsChosen(candidates, k, i);
    }
    forall c | c in candidates
      ensures || (exists i :: 0 <= i < |r| && SamePlace(r[i].candidate, c))
              || (|r| == k && forall i | 0 <= i < |r| :: r[i].candidate.score >= c.score)
    {
      var j :| 0 <= j < |candidates| && candidates[j] == c;
      if Covered(top, candidates[j]) {
        var i := CoveredAt(top, c);
        PlacesAre(top[i], c);
        assert SamePlace(r[i].candidate, c);
      }
    }
  }

  lemma PlacesAre(a: Candidate, b: Candidate)
    ensures SamePlace(a, b) <==> PlaceOf(a) == PlaceOf(b)
  {}

  lemma TopIsChosen(candidates: seq<Candidate>, k: nat, i: nat)
    requires i < |TopPlaces(candidates, k)|
    ensures Chosen(candidates, TopPlaces(candidates, k)[i])
  {
    hide PlaceOf, SamePlace, TopPlaces, Covered, FirstBest;
    var c := TopPlaces(candidates, k)[i];
    DedupeIsTopK(candidates, k);
    TopIsFirst(candidates, k, c);
    var m := FirstAt(candidates, c);
    forall j | 0 <= j < |candidates| && SamePlace(candidates[j], c)
      ensures if j < m then candidates[j].score < c.score else candidates[j].score <= c.score
    {
      PlacesAre(candidates[j], c);
    }
    assert ChosenAt(candidates, c, m);
  }

  lemma FirstAt(candidates: seq<Candidate>, c: Candidate) returns (m: nat)
    requires FirstBest(candidates, c)
    ensures FirstBestAt(candidates, c, m)
  {
    m :| FirstBestAt(candidates, c, m);
  }

  lemma TopIsFirst(candidates: seq<Candidate>, k: nat, c: Candidate)
    requires c in TopPlaces(candidates, k)
    ensures FirstBest(candidates, c)
  {
    hide FirstBest, Sort, BestPerPlace;
    BestAreFirst(candidates);
    MemberOf(Better, BestPerPlace(candidates), c);
    assert c in Sort(Better, BestPerPlace(candidates));
  }

  lemma CoveredAt(kept: seq<Candidate>, c: Candidate) returns (i: nat)
    requires Covered(kept, c)
    ensures i < |kept| && PlaceOf(kept[i]) == PlaceOf(c) && kept[i].score >= c.score
  {
    i :| 0 <= i < |kept| && PlaceOf(kept[i]) == PlaceOf(c) && kept[i].score >= c.score;
  }

  // ---------- should_answer ----------

  function TopScore(citations: seq<Citation>): real
    requires citations != []
  {
    var last := citations[|citations| - 1].candidate.score;
    if |citations| == 1 then last
    else
      var rest := TopScore(citations[..|citations| - 1]);
      if last > rest then last else rest
  }

  method ShouldAnswer(citations: seq<Citation>, minScore: real) returns (hit: bool)
    ensures hit <==> exists i :: 0 <= i < |citations| && citations[i].candidate.score >= minScore
  {
    if citations == [] {
      return false;
    }
    TopScoreIs(citations);
    hit := TopScore(citations) >= minScore;
  }

  lemma {:induction false} TopScoreIs(citations: seq<Citation>)
    requires citations != []
    ensures forall i | 0 <= i < |citations| :: citations[i].candidate.score <= TopScore(citations)
    ensures exists i :: 0 <= i < |citations| && citations[i].candidate.score == TopScore(citations)
  {
    var last := |citations| - 1;
    assert citations[last].candidate.score == TopScore(citations) || |citations| > 1;
    if |citations| > 1 {
      var rest := citations[..|citations| - 1];
      TopScoreIs(rest);
      var i :| 0 <= i < |rest| && rest[i].candidate.score == TopScore(rest);
      assert citations[i] == rest[i];
      assert citations[last].candidate.score == TopScore(citations) || citations[i].candidate.score == TopScore(citations);
      forall m | 0 <= m < |citations|
        ensures citations[m].candidate.score <= TopScore(citations)
      {
        if m < |rest| {
          assert citations[m] == rest[m];
        }
      }
    }
  }

  /** The whole pipeline behind the two retrieval tracks. */
  function Prepared(a: seq<Id>, b: seq<Id>, k: nat, rows: map<Id, Row>): seq<Citation> {
    Cite(TopPlaces(Materialized(Fused(a, b, k), rows), k))
  }

  lemma CandidateScores(a: seq<Id>, b: seq<Id>, k: nat, rows: map<Id, Row>, c: Candidate)
    requires Distinct(a) && Distinct(b) && |a| <= 2 * k && |b| <= 2 * k && k <= 275
    requires c in Materialized(Fused(a, b, k), rows)
    ensures c.score >= MIN_SCORE
  {
    hide Score, Sort, Ranked, Sorted;
    var fused := Fused(a, b, k);
    MemberOf(Better, Loaded(fused, rows), c);
    LoadedIs(fused, rows);
    RankedIs(a, b);
    var i :| 0 <= i < |fused| && fused[i] == Scored(c.id, c.score);
    assert fused[i] == Ranked(a, b)[i];
    LeastScore(a, b, k, c.id);
    assert 61.0 / (2.0 * ((60 + 2 * k) as real)) >= MIN_SCORE by { EnoughFor(k); }
  }

  lemma EnoughFor(k: nat)
    requires k <= 275
    ensures 61.0 / (2.0 * ((60 + 2 * k) as real)) >= MIN_SCORE
  {
    var n := 2.0 * ((60 + 2 * k) as real);
    assert 0.0 < n <= 1220.0;
    assert (61.0 / n) * n == 61.0;
    assert (61.0 / n - 0.05) * n == 61.0 - 0.05 * n;
    NotNegative(61.0 / n - 0.05, n);
  }

  lemma NotNegative(w: real, n: real)
    ensures n > 0.0 && w * n >= 0.0 ==> w >= 0.0
  {
    if n > 0.0 && w < 0.0 {
      assert w * n < 0.0;
    }
  }

  /** At the shipped threshold, for up to 275 citations, the question is answered exactly when
      some fused id still has its chunk. */
  lemma AnswersIffMaterialized(a: seq<Id>, b: seq<Id>, k: nat, rows: map<Id, Row>)
    requires Distinct(a) && Distinct(b) && |a| <= 2 * k && |b| <= 2 * k && k <= 275
    ensures (exists i :: 0 <= i < |Prepared(a, b, k, rows)| &&
                         Prepared(a, b, k, rows)[i].candidate.score >= 0.05) <==>
            (exists i :: 0 <= i < |Fused(a, b, k)| && Fused(a, b, k)[i].id in rows)
  {
    hide Score, Sort, Ranked, TopPlaces, Fused, BestPerPlace;
    var fused := Fused(a, b, k);
    var candidates := Materialized(fused, rows);
    var top := TopPlaces(candidates, k);
    var citations := Prepared(a, b, k, rows);
    LoadedIs(fused, rows);
    DedupeIsTopK(candidates, k);
    if k == 0 {
      NothingFused(rows);
      NoPlaces(k);
    } else if candidates != [] {
      TopNonEmpty(candidates, k);
      CandidateScores(a, b, k, rows, top[0]);
      assert citations[0].candidate == top[0];
    } else {
      NoPlaces(k);
    }
  }

  lemma NothingFused(rows: map<Id, Row>)
    ensures Fused([], [], 0) == [] && Materialized([], rows) == []
  {
    RankedIs([], []);
    hide Score, Sort;
  }

  lemma NoPlaces(k: nat)
    ensures TopPlaces([], k) == []
  {}

  lemma TopNonEmpty(candidates: seq<Candidate>, k: nat)
    requires candidates != [] && k > 0
    ensures TopPlaces(candidates, k) != []
  {
    hide Sort, BestPerPlace, Covered, DistinctBy;
    BestPerPlaceIs(candidates);
  }
}
