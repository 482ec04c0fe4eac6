/** Stable sorting by a total preorder, the model of the library sorts. */
module Sorting {

  ghost predicate TotalPreorder<T(!new)>(le: (T, T) -> bool) {
    && (forall a, b :: le(a, b) || le(b, a))
    && (forall a, b, c :: le(a, b) && le(b, c) ==> le(a, c))
  }

  /** x after everything it may follow. */
  function Insert<T>(le: (T, T) -> bool, x: T, sorted: seq<T>): (r: seq<T>)
    ensures |r| == |sorted| + 1
  {
    if sorted == [] || le(sorted[|sorted| - 1], x) then sorted + [x]
    else Insert(le, x, sorted[..|sorted| - 1]) + [sorted[|sorted| - 1]]
  }

  function Sort<T>(le: (T, T) -> bool, xs: seq<T>): (r: seq<T>)
    ensures |r| == |xs|
  {
    if xs == [] then [] else Insert(le, xs[|xs| - 1], Sort(le, xs[..|xs| - 1]))
  }

  ghost predicate Sorted<T(!new)>(le: (T, T) -> bool, xs: seq<T>) {
    forall i, j | 0 <= i < j < |xs| :: le(xs[i], xs[j])
  }

  lemma {:induction false} InsertMembers<T(!new)>(le: (T, T) -> bool, x: T, sorted: seq<T>)
    ensures multiset(Insert(le, x, sorted)) == multiset(sorted) + multiset{x}
  {
    if sorted == [] || le(sorted[|sorted| - 1], x) {
    } else {
      var init := sorted[..|sorted| - 1];
      InsertMembers(le, x, init);
      assert sorted == init + [sorted[|sorted| - 1]];
    }
  }

  lemma {:induction false} SortMembers<T(!new)>(le: (T, T) -> bool, xs: seq<T>)
    ensures multiset(Sort(le, xs)) == multiset(xs)
  {
    if xs != [] {
      SortMembers(le, xs[..|xs| - 1]);
      InsertMembers(le, xs[|xs| - 1], Sort(le, xs[..|xs| - 1]));
      assert xs == xs[..|xs| - 1] + [xs[|xs| - 1]];
    }
  }

  lemma MemberOf<T(!new)>(le: (T, T) -> bool, xs: seq<T>, x: T)
    ensures x in Sort(le, xs) <==> x in xs
  {
    SortMembers(le, xs);
    assert x in Sort(le, xs) <==> x in multiset(Sort(le, xs));
    assert x in xs <==> x in multiset(xs);
  }

  lemma {:induction false} InsertSorted<T(!new)>(le: (T, T) -> bool, x: T, sorted: seq<T>)
    requires TotalPreorder(le) && Sorted(le, sorted)
    ensures Sorted(le, Insert(le, x, sorted))
  {
    if sorted == [] || le(sorted[|sorted| - 1], x) {
      forall i | 0 <= i < |sorted|
        ensures le(sorted[i], x)
      {
        if i < |sorted| - 1 {
          assert le(sorted[i], sorted[|sorted| - 1]);
        }
      }
    } else {
      var init, last := sorted[..|sorted| - 1], sorted[|sorted| - 1];
      InsertSorted(le, x, init);
      InsertMembers(le, x, init);
      var r := Insert(le, x, init);
      forall i | 0 <= i < |r|
        ensures le(r[i], last)
      {
        assert r[i] in multiset(r);
        if r[i] != x {
          assert r[i] in multiset(init);
          assert r[i] in init;
          var k :| 0 <= k < |init| && init[k] == r[i];
          assert le(sorted[k], sorted[|sorted| - 1]);
        }
      }
    }
  }

  lemma {:induction false} SortSorts<T(!new)>(le: (T, T) -> bool, xs: seq<T>)
    requires TotalPreorder(le)
    ensures Sorted(le, Sort(le, xs))
  {
    hide TotalPreorder;
    if xs != [] {
      SortSorts(le, xs[..|xs| - 1]);
      InsertSorted(le, xs[|xs| - 1], Sort(le, xs[..|xs| - 1]));
    }
  }

  // ---------- stability ----------

  /** The elements that tie with x, in order. */
  function Ties<T>(le: (T, T) -> bool, x: T, xs: seq<T>): seq<T> {
    if xs == [] then []
    else
      var last := xs[|xs| - 1];
      Ties(le, x, xs[..|xs| - 1]) + if le(x, last) && le(last, x) then [last] else []
  }

  lemma TiesSnoc<T(!new)>(le: (T, T) -> bool, x: T, xs: seq<T>, y: T)
    ensures Ties(le, x, xs + [y]) == Ties(le, x, xs) + if le(x, y) && le(y, x) then [y] else []
  {
    assert (xs + [y])[..|xs|] == xs;
  }

  lemma {:induction false} InsertStable<T(!new)>(le: (T, T) -> bool, x: T, y: T, sorted: seq<T>)
    requires TotalPreorder(le)
    ensures Ties(le, x, Insert(le, y, sorted)) == Ties(le, x, sorted + [y])
  {
    if !(sorted == [] || le(sorted[|sorted| - 1], y)) {
      var init, last := sorted[..|sorted| - 1], sorted[|sorted| - 1];
      assert le(y, last);
      InsertStable(le, x, y, init);
      assert sorted == init + [last];
      TiesSnoc(le, x, Insert(le, y, init), last);
      TiesSnoc(le, x, init, y);
      TiesSnoc(le, x, init, last);
      TiesSnoc(le, x, sorted, y);
    }
  }

  /** Ties keep their order. */
  lemma {:induction false} SortStable<T(!new)>(le: (T, T) -> bool, x: T, xs: seq<T>)
    requires TotalPreorder(le)
    ensures Ties(le, x, Sort(le, xs)) == Ties(le, x, xs)
  {
    if xs != [] {
      var init, last := xs[..|xs| - 1], xs[|xs| - 1];
      SortStable(le, x, init);
      InsertStable(le, x, last, Sort(le, init));
      TiesSnoc(le, x, Sort(le, init), last);
      TiesSnoc(le, x, init, last);
      assert xs == init + [last];
    }
  }

  predicate Tied<T>(le: (T, T) -> bool, x: T, y: T) {
    le(x, y) && le(y, x)
  }

  /** Two ties stand among the ties in the order they have in the list ... */
  lemma {:induction false} TiesOf<T(!new)>(le: (T, T) -> bool, x: T, xs: seq<T>, i: nat, j: nat)
    returns (p: nat, q: nat)
    requires i < j < |xs| && Tied(le, x, xs[i]) && Tied(le, x, xs[j])
    ensures p < q < |Ties(le, x, xs)| && Ties(le, x, xs)[p] == xs[i] && Ties(le, x, xs)[q] == xs[j]
  {
    var n := |xs| - 1;
    if j < n {
      p, q := TiesOf(le, x, xs[..n], i, j);
    } else {
      p := TieOf(le, x, xs[..n], i);
      q := |Ties(le, x, xs[..n])|;
    }
  }

  lemma {:induction false} TieOf<T(!new)>(le: (T, T) -> bool, x: T, xs: seq<T>, i: nat) returns (p: nat)
    requires i < |xs| && Tied(le, x, xs[i])
    ensures p < |Ties(le, x, xs)| && Ties(le, x, xs)[p] == xs[i]
  {
    var n := |xs| - 1;
    if i < n {
      p := TieOf(le, x, xs[..n], i);
    } else {
      p := |Ties(le, x, xs[..n])|;
    }
  }

  /** ... and the other way round. */
  lemma {:induction false} TiesFrom<T(!new)>(le: (T, T) -> bool, x: T, xs: seq<T>, p: nat, q: nat)
    returns (i: nat, j: nat)
    requires p < q < |Ties(le, x, xs)|
    ensures i < j < |xs| && xs[i] == Ties(le, x, xs)[p] && xs[j] == Ties(le, x, xs)[q]
  {
    var n := |xs| - 1;
    var before := Ties(le, x, xs[..n]);
    if q < |before| {
      i, j := TiesFrom(le, x, xs[..n], p, q);
    } else {
      i := TieFrom(le, x, xs[..n], p);
      j := n;
    }
  }

  lemma {:induction false} TieFrom<T(!new)>(le: (T, T) -> bool, x: T, xs: seq<T>, p: nat) returns (i: nat)
    requires p < |Ties(le, x, xs)|
    ensures i < |xs| && xs[i] == Ties(le, x, xs)[p]
  {
    var n := |xs| - 1;
    if p < |Ties(le, x, xs[..n])| {
      i := TieFrom(le, x, xs[..n], p);
    } else {
      i := n;
    }
  }

  /** Of two elements that tie, the one shown first stood first. */
  lemma TiesStay<T(!new)>(le: (T, T) -> bool, xs: seq<T>, i: nat, j: nat) returns (p: nat, q: nat)
    requires TotalPreorder(le) && i < j < |xs| && Tied(le, Sort(le, xs)[i], Sort(le, xs)[j])
    ensures p < q < |xs| && xs[p] == Sort(le, xs)[i] && xs[q] == Sort(le, xs)[j]
  {
    hide Ties, Sort;
    var x := Sort(le, xs)[i];
    SortStable(le, x, xs);
    var a, b := TiesOf(le, x, Sort(le, xs), i, j);
    p, q := TiesFrom(le, x, xs, a, b);
  }

  // ---------- keys ----------

  ghost predicate DistinctBy<T(!new), K(!new)>(f: T -> K, xs: seq<T>) {
    forall i, j | 0 <= i < j < |xs| :: f(xs[i]) != f(xs[j])
  }

  lemma {:induction false} InsertDistinct<T(!new), K(!new)>(le: (T, T) -> bool, f: T -> K, x: T, sorted: seq<T>)
    requires DistinctBy(f, sorted) && forall i | 0 <= i < |sorted| :: f(sorted[i]) != f(x)
    ensures DistinctBy(f, Insert(le, x, sorted))
  {
    if !(sorted == [] || le(sorted[|sorted| - 1], x)) {
      var init, last := sorted[..|sorted| - 1], sorted[|sorted| - 1];
      InsertDistinct(le, f, x, init);
      InsertMembers(le, x, init);
      var r := Insert(le, x, init);
      forall i | 0 <= i < |r|
        ensures f(r[i]) != f(last)
      {
        assert r[i] in multiset(r);
        if r[i] != x {
          assert r[i] in multiset(init);
          assert r[i] in init;
        }
      }
    }
  }

  lemma {:induction false} SortDistinct<T(!new), K(!new)>(le: (T, T) -> bool, f: T -> K, xs: seq<T>)
    requires DistinctBy(f, xs)
    ensures DistinctBy(f, Sort(le, xs))
  {
    if xs != [] {
      var init, x := xs[..|xs| - 1], xs[|xs| - 1];
      SortDistinct(le, f, init);
      var sorted := Sort(le, init);
      forall i | 0 <= i < |sorted|
        ensures f(sorted[i]) != f(x)
      {
        MemberOf(le, init, sorted[i]);
        assert sorted[i] in sorted;
      }
      InsertDistinct(le, f, x, sorted);
    }
  }
}
