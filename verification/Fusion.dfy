/** Reciprocal-rank fusion of two retrieval tracks, deduplication, and the decision to answer.
    Scores are real numbers. */
module Fusion {
  import opened Wrappers
  import opened Text
  import opened Sorting

  type Id = string

  const RRF_K: nat := 60
  const MIN_SCORE := 0.05

  datatype Scored = Scored(id: Id, score: real)

  /** What rank r (from 0) is worth. */
  function Worth(r: nat): (w: real)
    ensures w > 0.0 && w * ((RRF_K + r + 1) as real) == 1.0
  {
    Reciprocal((RRF_K + r + 1) as real);
    1.0 / ((RRF_K + r + 1) as real)
  }

  lemma Reciprocal(n: real)
    requires n > 0.0
    ensures 1.0 / n > 0.0 && (1.0 / n) * n == 1.0
  {
    Sign(1.0 / n, n);
  }

  lemma Sign(w: real, n: real)
    ensures n > 0.0 && w * n > 0.0 ==> w > 0.0
  {
    if n > 0.0 && w <= 0.0 {
      assert w * n <= 0.0;
    }
  }

  lemma WorthFalls(r: nat, s: nat)
    requires r < s
    ensures Worth(s) < Worth(r)
  {
    var a, b := (RRF_K + r + 1) as real, (RRF_K + s + 1) as real;
    Falls(a, b, Worth(r), Worth(s));
  }

  lemma Falls(a: real, b: real, w: real, v: real)
    requires 0.0 < a < b && w > 0.0 && w * a == 1.0 && v * b == 1.0
    ensures v < w
  {
    assert w * (b - a) > 0.0;
    assert (w - v) * b == w * a + w * (b - a) - v * b;
    Sign(w - v, b);
  }

  /** What a track gives an id, over all its ranks. */
  function Contribution(track: seq<Id>, id: Id): real {
    if track == [] then 0.0
    else
      var n := |track| - 1;
      Contribution(track[..n], id) + if track[n] == id then Worth(n) else 0.0
  }

  predicate Distinct(track: seq<Id>) {
    forall i, j | 0 <= i < j < |track| :: track[i] != track[j]
  }

  // ---------- the dictionary of scores, in insertion order ----------

  function PositionOf(scores: seq<Scored>, id: Id): (i: nat)
    ensures i <= |scores| && (i < |scores| ==> scores[i].id == id)
    ensures forall k | 0 <= k < i :: scores[k].id != id
  {
    if scores == [] then 0
    else
      var n := |scores| - 1;
      var i := PositionOf(scores[..n], id);
      if i < n then i else if scores[n].id == id then n else n + 1
  }

  function Get(scores: seq<Scored>, id: Id): real {
    var i := PositionOf(scores, id);
    if i < |scores| then scores[i].score else 0.0
  }

  function Set(scores: seq<Scored>, id: Id, score: real): seq<Scored> {
    var i := PositionOf(scores, id);
    if i < |scores| then scores[i := Scored(id, score)] else scores + [Scored(id, score)]
  }

  ghost predicate Keyed(scores: seq<Scored>) {
    forall i, j | 0 <= i < j < |scores| :: scores[i].id != scores[j].id
  }

  predicate Has(scores: seq<Scored>, id: Id) {
    PositionOf(scores, id) < |scores|
  }

  lemma PositionUnique(scores: seq<Scored>, i: nat)
    requires Keyed(scores) && i < |scores|
    ensures PositionOf(scores, scores[i].id) == i
  {
    var p := PositionOf(scores, scores[i].id);
    hide PositionOf;
    if p < i {
    } else if i < p {
    }
  }

  lemma SetKeeps(scores: seq<Scored>, id: Id, score: real, other: Id)
    requires Keyed(scores)
    ensures var now := Set(scores, id, score);
            && Keyed(now) && Get(now, id) == score && Has(now, id)
            && (other != id ==> Get(now, other) == Get(scores, other) && Has(now, other) == Has(scores, other))
  {
    var now := Set(scores, id, score);
    hide PositionOf;
    assert Keyed(now);
    PositionUnique(now, PositionOf(scores, id));
    if other != id {
      var p, q := PositionOf(scores, other), PositionOf(now, other);
      if p < |scores| {
        PositionUnique(now, p);
      } else if q < |now| {
        assert now[q].id == other;
      }
    }
  }

  function Add(scores: seq<Scored>, id: Id, amount: real): seq<Scored> {
    Set(scores, id, Get(scores, id) + amount)
  }

  function Tally(scores: seq<Scored>, track: seq<Id>): seq<Scored> {
    if track == [] then scores
    else Add(Tally(scores, track[..|track| - 1]), track[|track| - 1], Worth(|track| - 1))
  }

  /** The dictionary adds up the contributions. */
  lemma {:induction false} TallyAdds(scores: seq<Scored>, track: seq<Id>, id: Id)
    requires Keyed(scores)
    ensures var now := Tally(scores, track);
            && Keyed(now) && Get(now, id) == Get(scores, id) + Contribution(track, id)
            && (Has(now, id) <==> Has(scores, id) || id in track)
  {
    hide Get, Has, Set, Worth, Keyed;
    if track != [] {
      var n := |track| - 1;
      var before := Tally(scores, track[..n]);
      TallyAdds(scores, track[..n], id);
      SetKeeps(before, track[n], Get(before, track[n]) + Worth(n), id);
      assert track == track[..n] + [track[n]];
    }
  }

  // ---------- fusion ----------

  function Active(a: seq<Id>, b: seq<Id>): nat {
    (if a != [] then 1 else 0) + (if b != [] then 1 else 0)
  }

  function Normalizer(a: seq<Id>, b: seq<Id>): (r: real)
    ensures r > 0.0
  {
    if Active(a, b) > 0 then Active(a, b) as real * Worth(0) else 1.0
  }

  predicate AtLeast(x: Scored, y: Scored) {
    x.score >= y.score
  }

  function Normalized(scores: seq<Scored>, normalizer: real): seq<Scored>
    requires normalizer > 0.0
  {
    seq(|scores|, i requires 0 <= i < |scores| => Scored(scores[i].id, scores[i].score / normalizer))
  }

  function Take<T>(xs: seq<T>, n: nat): seq<T> {
    if |xs| <= n then xs else xs[..n]
  }

  /** All scored ids, best first. */
  function Ranked(a: seq<Id>, b: seq<Id>): seq<Scored> {
    Sort(AtLeast, Normalized(Tally(Tally([], a), b), Normalizer(a, b)))
  }

  function Fused(a: seq<Id>, b: seq<Id>, k: nat): seq<Scored> {
    Take(Ranked(a, b), 2 * k)
  }

  function Ids(track: seq<Scored>): (r: seq<Id>)
    ensures |r| == |track|
  {
    seq(|track|, i requires 0 <= i < |track| => track[i].id)
  }

  lemma TallySnoc(scores: seq<Scored>, track: seq<Id>, n: nat)
    requires n < |track|
    ensures Tally(scores, track[..n + 1]) == Add(Tally(scores, track[..n]), track[n], Worth(n))
  {
    assert track[..n + 1][..n] == track[..n];
  }

  /** `rrf_fusion`. */
  method RrfFusion(trackA: seq<Scored>, trackB: seq<Scored>, k: nat) returns (fused: seq<Scored>)
    ensures fused == Fused(Ids(trackA), Ids(trackB), k)
  {
    var ranked := RankTracks(trackA, trackB);
    fused := if |ranked| <= 2 * k then ranked else ranked[..2 * k];
  }

  method RankTracks(trackA: seq<Scored>, trackB: seq<Scored>) returns (ranked: seq<Scored>)
    ensures ranked == Ranked(Ids(trackA), Ids(trackB))
  {
    var scores: seq<Scored> := [];
    ghost var a, b := Ids(trackA), Ids(trackB);
    var activeTracks := (if trackA != [] then 1 else 0) + (if trackB != [] then 1 else 0);
    hide Set, Get, Worth, Sort, Normalized;
    for rank := 0 to |trackA|
      invariant scores == Tally([], a[..rank])
    {
      TallySnoc([], a, rank);
      var id := trackA[rank].id;
      scores := Set(scores, id, Get(scores, id) + Worth(rank));
    }
    assert a[..|trackA|] == a;
    ghost var first := scores;
    for rank := 0 to |trackB|
      invariant scores == Tally(first, b[..rank])
    {
      TallySnoc(first, b, rank);
      var id := trackB[rank].id;
      scores := Set(scores, id, Get(scores, id) + Worth(rank));
    }
    assert b[..|trackB|] == b;
    var normalizer := if activeTracks > 0 then activeTracks as real * Worth(0) else 1.0;
    assert normalizer == Normalizer(a, b);
    ranked := Sort(AtLeast, Normalized(scores, normalizer));
  }

  /** `_rrf_fuse`: the same ranking, but a track alone passes through with its own scores. */
  method RrfFuse(vectorResults: seq<Scored>, bm25Results: seq<Scored>, k: nat) returns (ranked: seq<Scored>)
    ensures vectorResults != [] && bm25Results == [] ==>
              ranked == if |vectorResults| <= k then vectorResults else vectorResults[..k]
    ensures vectorResults == [] && bm25Results != [] ==>
              ranked == if |bm25Results| <= k then bm25Results else bm25Results[..k]
    ensures (vectorResults == [] <==> bm25Results == []) ==>
              ranked == Take(Ranked(Ids(vectorResults), Ids(bm25Results)), k)
  {
    if vectorResults != [] && bm25Results == [] {
      return Take(vectorResults, k);
    }
    if bm25Results != [] && vectorResults == [] {
      return Take(bm25Results, k);
    }
    ranked := RankTracks(vectorResults, bm25Results);
    ranked := Take(ranked, k);
  }

  // ---------- what the scores are ----------

  function Score(a: seq<Id>, b: seq<Id>, id: Id): real {
    (Contribution(a, id) + Contribution(b, id)) / Normalizer(a, b)
  }

  lemma EmptyScores(id: Id)
    ensures !Has([], id) && Get([], id) == 0.0 && Keyed([])
  {}

  lemma AtLeastPreorder()
    ensures TotalPreorder(AtLeast)
  {}

  /** The ranking lists every id of a track once, with its fused score, best first. */
  lemma RankedIs(a: seq<Id>, b: seq<Id>)
    ensures var r := Ranked(a, b);
            && (forall i | 0 <= i < |r| :: r[i].score == Score(a, b, r[i].id) && (r[i].id in a || r[i].id in b))
            && (forall id | id in a || id in b :: exists i :: 0 <= i < |r| && r[i].id == id)
            && Sorted(AtLeast, r) && DistinctBy(IdOf, r)
  {
    hide Sort, Tally, Contribution, Set, Worth, PositionOf, TotalPreorder, Sorted;
    var scores := Tally(Tally([], a), b);
    var norm := Normalizer(a, b);
    var rows := Normalized(scores, norm);
    hide Normalizer;
    AtLeastPreorder();
    SortSorts(AtLeast, rows);
    TalliedKeyed(a, b);
    assert DistinctBy(IdOf, rows);
    SortDistinct(AtLeast, IdOf, rows);
    hide DistinctBy;
    var r := Ranked(a, b);
    forall i | 0 <= i < |r|
      ensures r[i].score == Score(a, b, r[i].id) && (r[i].id in a || r[i].id in b)
    {
      MemberOf(AtLeast, rows, r[i]);
      assert r[i] in rows;
      var m :| 0 <= m < |rows| && rows[m] == r[i];
      TalliedScore(a, b, r[i].id);
      TalliedAt(a, b, m);
    }
    forall id | id in a || id in b
      ensures exists i :: 0 <= i < |r| && r[i].id == id
    {
      TalliedScore(a, b, id);
      var m := PositionOf(scores, id);
      assert Has(scores, id) && rows[m].id == id;
      MemberOf(AtLeast, rows, rows[m]);
      assert rows[m] in r;
    }
  }

  function IdOf(s: Scored): Id {
    s.id
  }

  lemma TalliedKeyed(a: seq<Id>, b: seq<Id>)
    ensures Keyed(Tally(Tally([], a), b))
  {
    TalliedScore(a, b, "");
  }

  lemma TalliedScore(a: seq<Id>, b: seq<Id>, id: Id)
    ensures var scores := Tally(Tally([], a), b);
            && Keyed(scores) && Get(scores, id) == Contribution(a, id) + Contribution(b, id)
            && (Has(scores, id) <==> id in a || id in b)
  {
    EmptyScores(id);
    TallyAdds([], a, id);
    TallyAdds(Tally([], a), b, id);
    hide Tally, Contribution, Get, Has;
  }

  lemma TalliedAt(a: seq<Id>, b: seq<Id>, m: nat)
    requires m < |Tally(Tally([], a), b)|
    ensures var scores := Tally(Tally([], a), b);
            Has(scores, scores[m].id) && Get(scores, scores[m].id) == scores[m].score
  {
    var scores := Tally(Tally([], a), b);
    TalliedScore(a, b, scores[m].id);
    PositionUnique(scores, m);
    hide Tally, PositionOf;
  }

  /** Of the ids found, the 2k with the best scores are kept, or all if there are no more. */
  lemma FusedIs(a: seq<Id>, b: seq<Id>, k: nat)
    ensures var fused := Fused(a, b, k);
            var all := (set id | id in a) + set id | id in b;
            && |fused| == (if |all| <= 2 * k then |all| else 2 * k)
            && (forall i, j | 0 <= i < j < |fused| ::
                  fused[i].score >= fused[j].score && fused[i].id != fused[j].id)
            && (forall i | 0 <= i < |fused| :: fused[i].id in all && fused[i].score == Score(a, b, fused[i].id))
            && forall id, i | id in all && 0 <= i < |fused| && (forall m | 0 <= m < |fused| :: fused[m].id != id) ::
                 fused[i].score >= Score(a, b, id)
  {
    hide Score, Ranked, Fused, Sorted, DistinctBy, AtLeast, IdOf;
    RankedIs(a, b);
    var ranked, fused := Ranked(a, b), Fused(a, b, k);
    FusedPrefix(a, b, k);
    RankedCount(ranked, (set id | id in a) + set id | id in b);
    forall i, j | 0 <= i < j < |fused|
      ensures fused[i].score >= fused[j].score && fused[i].id != fused[j].id
    {
      BestFirst(ranked, i, j);
    }
    forall id, i | (id in a || id in b) && 0 <= i < |fused| && (forall m | 0 <= m < |fused| :: fused[m].id != id)
      ensures fused[i].score >= Score(a, b, id)
    {
      var m :| 0 <= m < |ranked| && ranked[m].id == id;
      BestFirst(ranked, i, m);
    }
  }

  lemma FusedPrefix(a: seq<Id>, b: seq<Id>, k: nat)
    ensures var r, fused := Ranked(a, b), Fused(a, b, k);
            && |fused| == (if |r| <= 2 * k then |r| else 2 * k)
            && forall i | 0 <= i < |fused| :: fused[i] == r[i]
  {
    hide Ranked;
  }

  lemma BestFirst(r: seq<Scored>, i: nat, j: nat)
    requires Sorted(AtLeast, r) && DistinctBy(IdOf, r) && i < j < |r|
    ensures r[i].score >= r[j].score && r[i].id != r[j].id
  {
    assert AtLeast(r[i], r[j]) && IdOf(r[i]) != IdOf(r[j]);
  }

  lemma {:induction false} RankedCount(ranked: seq<Scored>, all: set<Id>)
    requires DistinctBy(IdOf, ranked) && forall i | 0 <= i < |ranked| :: ranked[i].id in all
    requires forall id | id in all :: exists i :: 0 <= i < |ranked| && ranked[i].id == id
    ensures |ranked| == |all|
  {
    if ranked == [] {
      assert all == {};
    } else {
      var n := |ranked| - 1;
      var last := ranked[n].id;
      forall i | 0 <= i < n ensures ranked[..n][i].id in all - {last} {
        assert IdOf(ranked[i]) != IdOf(ranked[n]);
      }
      forall id | id in all - {last} ensures exists i :: 0 <= i < n && ranked[..n][i].id == id {
        var i :| 0 <= i < |ranked| && ranked[i].id == id;
        assert ranked[..n][i].id == id;
      }
      RankedCount(ranked[..n], all - {last});
    }
  }

  // ---------- ties ----------

  /** x occurs before the first y. */
  ghost predicate FirstIn(ids: seq<Id>, x: Id, y: Id) {
    exists m :: 0 <= m < |ids| && ids[m] == x && forall k | 0 <= k <= m :: ids[k] != y
  }

  /** The dictionary lists the ids seen, in the order of their first occurrences. */
  ghost predicate InOrder(scores: seq<Scored>, ids: seq<Id>) {
    && (forall i | 0 <= i < |scores| :: scores[i].id in ids)
    && (forall id | id in ids :: Has(scores, id))
    && forall i, j | 0 <= i < j < |scores| :: FirstIn(ids, scores[i].id, scores[j].id)
  }

  lemma FirstInMore(ids: seq<Id>, more: Id, x: Id, y: Id)
    ensures FirstIn(ids, x, y) ==> FirstIn(ids + [more], x, y)
    ensures x in ids && y !in ids ==> FirstIn(ids + [more], x, y)
  {
    if FirstIn(ids, x, y) {
      var m :| 0 <= m < |ids| && ids[m] == x && forall k | 0 <= k <= m :: ids[k] != y;
      assert (ids + [more])[m] == x;
    }
    if x in ids && y !in ids {
      var m :| 0 <= m < |ids| && ids[m] == x;
      assert (ids + [more])[m] == x && forall k | 0 <= k <= m :: (ids + [more])[k] == ids[k];
    }
  }

  lemma AddInOrder(scores: seq<Scored>, ids: seq<Id>, id: Id, amount: real)
    requires Keyed(scores) && InOrder(scores, ids)
    ensures InOrder(Add(scores, id, amount), ids + [id])
  {
    hide PositionOf, FirstIn;
    var now := Add(scores, id, amount);
    AddKeeps(scores, id, amount);
    forall x | x in ids + [id] ensures Has(now, x) {
      SetKeeps(scores, id, Get(scores, id) + amount, x);
    }
    forall i, j | 0 <= i < j < |now| ensures FirstIn(ids + [id], now[i].id, now[j].id) {
      FirstInMore(ids, id, now[i].id, now[j].id);
      if j == |scores| {
        assert now[i].id == scores[i].id;
        assert !Has(scores, id);
      }
    }
    hide Has;
  }

  lemma AddKeeps(scores: seq<Scored>, id: Id, amount: real)
    ensures var now := Add(scores, id, amount);
            && |scores| <= |now| <= |scores| + 1
            && (forall i | 0 <= i < |scores| :: now[i].id == scores[i].id)
            && (|now| > |scores| ==> now[|scores|].id == id && !Has(scores, id))
            && (id in (set i | 0 <= i < |now| :: now[i].id))
  {
    hide Get;
    var now := Add(scores, id, amount);
    var p := PositionOf(scores, id);
    assert now[p].id == id;
  }

  lemma {:induction false} TallyInOrder(scores: seq<Scored>, ids: seq<Id>, track: seq<Id>)
    requires Keyed(scores) && InOrder(scores, ids)
    ensures InOrder(Tally(scores, track), ids + track)
  {
    hide InOrder, Add, Worth, Keyed;
    if track == [] {
      assert ids + track == ids;
    } else {
      var n := |track| - 1;
      TallyInOrder(scores, ids, track[..n]);
      TallyAdds(scores, track[..n], "");
      AddInOrder(Tally(scores, track[..n]), ids + track[..n], track[n], Worth(n));
      assert ids + track == (ids + track[..n]) + [track[n]];
    }
  }

  lemma NothingInOrder()
    ensures InOrder([], [])
  {}

  /** Equal scores keep the order in which the ids first occur, the first track before the
      second. */
  lemma TiesInOrder(a: seq<Id>, b: seq<Id>, i: nat, j: nat)
    requires i < j < |Ranked(a, b)| && Ranked(a, b)[i].score == Ranked(a, b)[j].score
    ensures FirstIn(a + b, Ranked(a, b)[i].id, Ranked(a, b)[j].id)
  {
    hide Sort, Tally, Normalizer, TotalPreorder, FirstIn, Has;
    var scores := Tally(Tally([], a), b);
    TalliedInOrder(a, b);
    AtLeastPreorder();
    var rows := Normalized(scores, Normalizer(a, b));
    var p, q := TiesStay(AtLeast, rows, i, j);
    assert rows[p].id == scores[p].id && rows[q].id == scores[q].id;
  }

  lemma TalliedInOrder(a: seq<Id>, b: seq<Id>)
    ensures InOrder(Tally(Tally([], a), b), a + b)
  {
    EmptyScores("");
    NothingInOrder();
    TallyAdds([], a, "");
    hide InOrder, Tally, Keyed, Has, Get;
    TallyInOrder([], [], a);
    assert [] + a == a;
    TallyInOrder(Tally([], a), a, b);
  }

  // ---------- bounds ----------

  lemma {:induction false} ContributionAt(track: seq<Id>, id: Id, r: nat)
    requires Distinct(track)
    ensures id !in track ==> Contribution(track, id) == 0.0
    ensures r < |track| && track[r] == id ==> Contribution(track, id) == Worth(r)
  {
    hide Worth;
    if track != [] {
      var n := |track| - 1;
      ContributionAt(track[..n], id, r);
      if r == n && track[n] == id {
        assert id !in track[..n];
      }
    }
  }

  /** First in the track, or in no way better than second. */
  lemma ContributionBounds(track: seq<Id>, id: Id)
    requires Distinct(track)
    ensures 0.0 <= Contribution(track, id) <= Worth(0)
    ensures id in track ==> 0.0 < Contribution(track, id)
    ensures Contribution(track, id) == Worth(0) <==> track != [] && track[0] == id
  {
    hide Worth, Contribution;
    ContributionAt(track, id, 0);
    if id in track {
      var r :| 0 <= r < |track| && track[r] == id;
      ContributionAt(track, id, r);
      if r > 0 {
        WorthFalls(0, r);
      }
    }
  }

  predicate FirstWherever(track: seq<Id>, id: Id) {
    track != [] ==> track[0] == id
  }

  lemma ScoreTimes(a: seq<Id>, b: seq<Id>, id: Id)
    requires a != [] || b != []
    ensures Score(a, b, id) * (Active(a, b) as real * Worth(0)) == Contribution(a, id) + Contribution(b, id)
  {
    hide Worth, Contribution;
  }

  /** Comparing scores is comparing the sums of contributions. */
  lemma ScoreCompares(a: seq<Id>, b: seq<Id>, x: Id, bound: real)
    requires a != [] || b != []
    ensures Score(a, b, x) <= bound <==> Contribution(a, x) + Contribution(b, x) <= bound * (Active(a, b) as real * Worth(0))
    ensures Score(a, b, x) >= bound <==> Contribution(a, x) + Contribution(b, x) >= bound * (Active(a, b) as real * Worth(0))
  {
    hide Worth, Contribution;
    ScoreTimes(a, b, x);
    var n, s := Active(a, b) as real * Worth(0), Score(a, b, x);
    assert n > 0.0;
    hide Score;
    if s <= bound {
      assert s * n <= bound * n;
    }
    if s >= bound {
      assert s * n >= bound * n;
    }
    if s < bound {
      assert s * n < bound * n;
    }
    if s > bound {
      assert s * n > bound * n;
    }
  }

  /** Fused scores lie in (0, 1], and 1 means first in every track that found anything. */
  lemma ScoreRange(a: seq<Id>, b: seq<Id>, id: Id)
    requires Distinct(a) && Distinct(b) && (id in a || id in b)
    ensures 0.0 < Score(a, b, id) <= 1.0
    ensures Score(a, b, id) == 1.0 <==> FirstWherever(a, id) && FirstWherever(b, id)
  {
    hide Worth, Contribution, Score;
    ContributionBounds(a, id);
    ContributionBounds(b, id);
    ScoreCompares(a, b, id, 1.0);
    ScoreCompares(a, b, id, 0.0);
    EmptyContributes(a, id);
    EmptyContributes(b, id);
  }

  lemma EmptyContributes(track: seq<Id>, id: Id)
    ensures track == [] ==> Contribution(track, id) == 0.0
  {}

  /** x stands at least as well as y in the track. */
  ghost predicate Dominates(track: seq<Id>, x: Id, y: Id) {
    forall j | 0 <= j < |track| && track[j] == y :: exists i :: 0 <= i <= j && track[i] == x
  }

  lemma DominatesAt(track: seq<Id>, x: Id, y: Id, j: nat) returns (i: nat)
    requires Dominates(track, x, y) && j < |track| && track[j] == y
    ensures i <= j && track[i] == x
  {
    i :| 0 <= i <= j && track[i] == x;
  }

  lemma TrackDominance(track: seq<Id>, x: Id, y: Id)
    requires Distinct(track) && Dominates(track, x, y)
    ensures Contribution(track, x) >= Contribution(track, y)
  {
    hide Worth, Contribution, Dominates, Distinct;
    ContributionBounds(track, x);
    ContributionAt(track, y, 0);
    if y in track {
      var j :| 0 <= j < |track| && track[j] == y;
      var i := DominatesAt(track, x, y, j);
      ContributionAt(track, y, j);
      ContributionAt(track, x, i);
      if i < j {
        WorthFalls(i, j);
      }
    }
  }

  /** The score written out: 1 / (61 + rank) from each track that has the id, times 61, divided
      by the number of tracks that found anything. */
  lemma ScoreIs(a: seq<Id>, b: seq<Id>, id: Id, i: int, j: int)
    requires Distinct(a) && Distinct(b)
    requires -1 <= i < |a| && if i < 0 then id !in a else a[i] == id
    requires -1 <= j < |b| && if j < 0 then id !in b else b[j] == id
    requires i >= 0 || j >= 0
    ensures var fromA, fromB := if i < 0 then 0.0 else 61.0 / ((61 + i) as real),
                                if j < 0 then 0.0 else 61.0 / ((61 + j) as real);
            Score(a, b, id) == if a != [] && b != [] then (fromA + fromB) / 2.0 else fromA + fromB
  {
    hide Contribution;
    ContributionAt(a, id, if i < 0 then 0 else i);
    ContributionAt(b, id, if j < 0 then 0 else j);
    if i >= 0 {
      WorthIs(i);
    }
    if j >= 0 {
      WorthIs(j);
    }
    WorthIs(0);
    hide Worth;
    ScoreTimes(a, b, id);
  }

  lemma WorthIs(r: nat)
    ensures Worth(r) == 1.0 / ((61 + r) as real)
    ensures Worth(r) * 61.0 == 61.0 / ((61 + r) as real)
  {}

  /** At least as good a rank in each track gives at least the score. */
  lemma Dominance(a: seq<Id>, b: seq<Id>, x: Id, y: Id)
    requires Distinct(a) && Distinct(b) && Dominates(a, x, y) && Dominates(b, x, y)
    ensures Score(a, b, x) >= Score(a, b, y)
  {
    hide Worth, Contribution, Dominates, Distinct;
    TrackDominance(a, x, y);
    TrackDominance(b, x, y);
    if a != [] || b != [] {
      hide Score, Active;
      ScoreTimes(a, b, y);
      ScoreCompares(a, b, x, Score(a, b, y));
    } else {
      EmptyContributes(a, x);
      EmptyContributes(b, x);
      EmptyContributes(a, y);
      EmptyContributes(b, y);
    }
  }

  /** Some id scores at least 1/2. */
  lemma BestAtLeastHalf(a: seq<Id>, b: seq<Id>)
    requires Distinct(a) && Distinct(b) && (a != [] || b != [])
    ensures var r := Ranked(a, b); r != [] && r[0].score >= 0.5
  {
    hide Worth, Contribution, Score, Sort, Tally, Sorted, Ranked;
    RankedIs(a, b);
    var top := if a != [] then a[0] else b[0];
    ContributionBounds(a, top);
    ContributionBounds(b, top);
    ScoreCompares(a, b, top, 0.5);
    var r := Ranked(a, b);
    var i :| 0 <= i < |r| && r[i].id == top;
    FirstIsBest(r, i);
  }

  lemma FirstIsBest(r: seq<Scored>, i: nat)
    requires Sorted(AtLeast, r) && i < |r|
    ensures r[0].score >= r[i].score
  {
    if i > 0 {
      assert AtLeast(r[0], r[i]);
    }
  }

  /** With at most 2k ids in a track, every id scores at least 61 / (2 (60 + 2k)). */
  lemma LeastScore(a: seq<Id>, b: seq<Id>, k: nat, id: Id)
    requires Distinct(a) && Distinct(b) && |a| <= 2 * k && |b| <= 2 * k && (id in a || id in b)
    ensures Score(a, b, id) >= 61.0 / (2.0 * ((60 + 2 * k) as real))
  {
    hide Contribution, Score;
    ContributionBounds(a, id);
    ContributionBounds(b, id);
    var least := Worth(2 * k - 1);
    assert Contribution(a, id) + Contribution(b, id) >= least by {
      if id in a {
        TrackLeast(a, 2 * k, id);
      } else {
        TrackLeast(b, 2 * k, id);
      }
    }
    var bound := 61.0 / (2.0 * ((60 + 2 * k) as real));
    assert bound == 61.0 * least / 2.0;
    assert bound * (Active(a, b) as real * Worth(0)) <= least by {
      assert Worth(0) == 1.0 / 61.0;
      assert Active(a, b) <= 2;
      assert bound * (2.0 * Worth(0)) == least;
      assert least > 0.0;
    }
    ScoreCompares(a, b, id, bound);
  }

  lemma TrackLeast(track: seq<Id>, n: nat, id: Id)
    requires Distinct(track) && |track| <= n && id in track
    ensures Contribution(track, id) >= Worth(n - 1)
  {
    hide Worth, Contribution;
    var r :| 0 <= r < |track| && track[r] == id;
    ContributionAt(track, id, r);
    if r < n - 1 {
      WorthFalls(r, n - 1);
    }
  }
}
