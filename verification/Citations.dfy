/** The order in which the citations of an answer are shown: grouped by document, and within a
    document by clause number. */
module Citations {
  import opened Wrappers
  import opened Sequences
  import opened Sorting

  datatype Citation = Citation(id: string, documentId: string, documentTitle: string, index: int,
                               sectionPath: seq<string>, snippet: string, sectionText: string)

  /** Left abstract: the last clause number a text mentions (a regular expression), the numbers
      between its dots, and the comparison of strings in the Chinese locale. */
  datatype Env = Env(lastClause: string -> Option<string>, numbers: string -> seq<nat>, locale: (string, string) -> int) {
    ghost predicate Valid() {
      && (forall a, b :: locale(a, b) < 0 <==> locale(b, a) > 0)
      && (forall a, b, c :: locale(a, b) <= 0 && locale(b, c) <= 0 ==> locale(a, c) <= 0)
    }
  }

  // ---------- clauses ----------

  function At(s: seq<nat>, i: nat): nat {
    if i < |s| then s[i] else 0
  }

  /** The first difference from position i on, missing numbers counting as 0. */
  function FirstDifference(left: seq<nat>, right: seq<nat>, i: nat, n: nat): int
    decreases n - i
  {
    var diff: int := At(left, i) as int - At(right, i) as int;
    if i >= n then 0
    else if diff != 0 then diff
    else FirstDifference(left, right, i + 1, n)
  }

  function Longer(left: seq<nat>, right: seq<nat>): nat {
    if |left| < |right| then |right| else |left|
  }

  function CompareClause(env: Env, a: string, b: string): int {
    var left, right := env.numbers(a), env.numbers(b);
    var diff := FirstDifference(left, right, 0, Longer(left, right));
    if diff != 0 then diff else env.locale(a, b)
  }

  /** `compareClause`. */
  method CompareClauses(env: Env, a: string, b: string) returns (order: int)
    ensures order == CompareClause(env, a, b)
  {
    var left, right := env.numbers(a), env.numbers(b);
    var length := Longer(left, right);
    for i := 0 to length
      invariant FirstDifference(left, right, 0, length) == FirstDifference(left, right, i, length)
    {
      var diff: int := At(left, i) as int - At(right, i) as int;
      if diff != 0 {
        return diff;
      }
    }
    return env.locale(a, b);
  }

  lemma {:induction false} DifferenceBound(left: seq<nat>, right: seq<nat>, i: nat, n: nat, m: nat)
    requires |left| <= n && |right| <= n && n <= m
    ensures FirstDifference(left, right, i, m) == FirstDifference(left, right, i, n)
    decreases m - i
  {
    if i < m {
      DifferenceBound(left, right, i + 1, n, m);
    }
  }

  lemma {:induction false} DifferenceFlips(left: seq<nat>, right: seq<nat>, i: nat, n: nat)
    ensures FirstDifference(left, right, i, n) == -FirstDifference(right, left, i, n)
    decreases n - i
  {
    if i < n {
      DifferenceFlips(left, right, i + 1, n);
    }
  }

  lemma {:induction false} DifferenceChains(a: seq<nat>, b: seq<nat>, c: seq<nat>, i: nat, n: nat)
    requires FirstDifference(a, b, i, n) <= 0 && FirstDifference(b, c, i, n) <= 0
    ensures FirstDifference(a, c, i, n) <= 0
    ensures FirstDifference(a, c, i, n) == 0 ==> FirstDifference(a, b, i, n) == 0 && FirstDifference(b, c, i, n) == 0
    decreases n - i
  {
    if i < n && At(a, i) == At(b, i) == At(c, i) {
      DifferenceChains(a, b, c, i + 1, n);
    }
  }

  lemma ClauseFlips(env: Env, a: string, b: string)
    requires env.Valid()
    ensures CompareClause(env, a, b) < 0 <==> CompareClause(env, b, a) > 0
  {
    DifferenceFlips(env.numbers(a), env.numbers(b), 0, Longer(env.numbers(a), env.numbers(b)));
    hide FirstDifference;
  }

  lemma ClauseChains(env: Env, a: string, b: string, c: string)
    requires env.Valid() && CompareClause(env, a, b) <= 0 && CompareClause(env, b, c) <= 0
    ensures CompareClause(env, a, c) <= 0
    ensures CompareClause(env, a, c) == 0 ==> CompareClause(env, a, b) == 0 && CompareClause(env, b, c) == 0
  {
    hide FirstDifference;
    var x, y, z := env.numbers(a), env.numbers(b), env.numbers(c);
    var n := |x| + |y| + |z|;
    DifferenceBound(x, y, 0, Longer(x, y), n);
    DifferenceBound(y, z, 0, Longer(y, z), n);
    DifferenceBound(x, z, 0, Longer(x, z), n);
    DifferenceChains(x, y, z, 0, n);
  }

  /** At position i, and nowhere before, the numbers differ, and the left one is smaller; a
      missing number counts as 0. */
  ghost predicate BelowAt(left: seq<nat>, right: seq<nat>, i: nat) {
    && (if i < |left| then left[i] else 0) < (if i < |right| then right[i] else 0)
    && forall k: nat | k < i :: (if k < |left| then left[k] else 0) == if k < |right| then right[k] else 0
  }

  lemma {:induction false} DifferenceAt(left: seq<nat>, right: seq<nat>, i: nat, n: nat)
    requires |left| <= n && |right| <= n && i <= n
    requires forall k: nat | k < i :: (if k < |left| then left[k] else 0) == if k < |right| then right[k] else 0
    ensures FirstDifference(left, right, i, n) < 0 ==> exists j: nat :: BelowAt(left, right, j)
    ensures FirstDifference(left, right, i, n) > 0 ==> exists j: nat :: BelowAt(right, left, j)
    ensures FirstDifference(left, right, i, n) == 0 ==>
              forall k: nat :: (if k < |left| then left[k] else 0) == if k < |right| then right[k] else 0
    decreases n - i
  {
    if i < n {
      if At(left, i) == At(right, i) {
        DifferenceAt(left, right, i + 1, n);
      } else {
        assert BelowAt(left, right, i) || BelowAt(right, left, i);
      }
    }
  }

  lemma NotBothBelow(left: seq<nat>, right: seq<nat>, i: nat, j: nat)
    ensures !(BelowAt(left, right, i) && BelowAt(right, left, j))
  {}

  /** Clauses come in the order of their numbers; the locale decides between equal ones. */
  lemma CompareClauseIs(env: Env, a: string, b: string)
    ensures var left, right := env.numbers(a), env.numbers(b);
            var below, above := exists i: nat :: BelowAt(left, right, i), exists i: nat :: BelowAt(right, left, i);
            && (below ==> CompareClause(env, a, b) < 0 && !above)
            && (above ==> CompareClause(env, a, b) > 0)
            && (!below && !above ==> CompareClause(env, a, b) == env.locale(a, b))
  {
    var left, right := env.numbers(a), env.numbers(b);
    DifferenceAt(left, right, 0, Longer(left, right));
    forall i: nat, j: nat ensures !(BelowAt(left, right, i) && BelowAt(right, left, j)) {
      NotBothBelow(left, right, i, j);
    }
    hide FirstDifference;
  }

  // ---------- the comparator ----------

  /** The clause of the innermost section that names one, else of the snippet, else of the text. */
  function ClauseIn(env: Env, path: seq<string>): Option<string> {
    if path == [] then None
    else
      var clause := env.lastClause(path[|path| - 1]);
      if clause.Some? then clause else ClauseIn(env, path[..|path| - 1])
  }

  function CitationClause(env: Env, c: Citation): Option<string> {
    var clause := ClauseIn(env, c.sectionPath);
    if clause.Some? then clause
    else
      var inSnippet := env.lastClause(c.snippet);
      if inSnippet.Some? then inSnippet else env.lastClause(c.sectionText)
  }

  function Compare(env: Env, a: Citation, b: Citation): int {
    var left, right := CitationClause(env, a), CitationClause(env, b);
    var diff := if left.Some? && right.Some? then CompareClause(env, left.value, right.value) else 0;
    if diff != 0 then diff
    else if left.Some? && right.None? then -1
    else if left.None? && right.Some? then 1
    else a.index - b.index
  }

  function NotAfter(env: Env): (Citation, Citation) -> bool {
    (a, b) => Compare(env, a, b) <= 0
  }

  lemma CompareFlips(env: Env, a: Citation, b: Citation)
    requires env.Valid()
    ensures Compare(env, a, b) < 0 <==> Compare(env, b, a) > 0
  {
    hide CompareClause, CitationClause;
    var left, right := CitationClause(env, a), CitationClause(env, b);
    if left.Some? && right.Some? {
      ClauseFlips(env, left.value, right.value);
      ClauseFlips(env, right.value, left.value);
    }
  }

  lemma CompareChains(env: Env, a: Citation, b: Citation, c: Citation)
    requires env.Valid() && Compare(env, a, b) <= 0 && Compare(env, b, c) <= 0
    ensures Compare(env, a, c) <= 0
  {
    hide CompareClause, CitationClause;
    var x, y, z := CitationClause(env, a), CitationClause(env, b), CitationClause(env, c);
    if x.Some? && y.Some? && z.Some? {
      ClauseChains(env, x.value, y.value, z.value);
    }
  }

  /** The comparator is a total preorder, so sorting by it means something. */
  lemma ComparatorIsTotalPreorder(env: Env)
    requires env.Valid()
    ensures TotalPreorder(NotAfter(env))
  {
    hide Compare;
    var le := NotAfter(env);
    forall a, b
      ensures le(a, b) || le(b, a)
    {
      CompareFlips(env, a, b);
    }
    forall a, b, c | le(a, b) && le(b, c)
      ensures le(a, c)
    {
      CompareChains(env, a, b, c);
    }
  }

  /** A citation with a clause comes before one without; within a clause, or among those
      without one, the index decides. */
  lemma CompareIs(env: Env, a: Citation, b: Citation)
    requires env.Valid()
    ensures var left, right := CitationClause(env, a), CitationClause(env, b);
            && (left.Some? && right.None? ==> Compare(env, a, b) < 0)
            && (left == right ==> (Compare(env, a, b) < 0 <==> a.index < b.index))
            && (left.Some? && right.Some? ==>
                  && (CompareClause(env, left.value, right.value) < 0 ==> Compare(env, a, b) < 0)
                  && (CompareClause(env, left.value, right.value) > 0 ==> Compare(env, a, b) > 0))
  {
    hide CompareClause, CitationClause;
    var left := CitationClause(env, a);
    if left.Some? {
      ClauseFlips(env, left.value, left.value);
    }
  }

  /** The innermost section that names a clause gives it. */
  lemma {:induction false} ClauseInIs(env: Env, path: seq<string>, i: int)
    requires -1 <= i < |path| && forall k | i < k < |path| :: env.lastClause(path[k]).None?
    requires i >= 0 ==> env.lastClause(path[i]).Some?
    ensures ClauseIn(env, path) == if i < 0 then None else env.lastClause(path[i])
  {
    if i < |path| - 1 {
      ClauseInIs(env, path[..|path| - 1], i);
    }
  }

  /** No section names one: the snippet does, or else the text. */
  lemma CitationClauseIs(env: Env, c: Citation, i: int)
    requires -1 <= i < |c.sectionPath| && forall k | i < k < |c.sectionPath| :: env.lastClause(c.sectionPath[k]).None?
    requires i >= 0 ==> env.lastClause(c.sectionPath[i]).Some?
    ensures CitationClause(env, c) ==
            if i >= 0 then env.lastClause(c.sectionPath[i])
            else if env.lastClause(c.snippet).Some? then env.lastClause(c.snippet)
            else env.lastClause(c.sectionText)
  {
    ClauseInIs(env, c.sectionPath, i);
  }

  // ---------- grouping ----------

  datatype Group = Group(key: string, citations: seq<Citation>)

  function KeyOf(c: Citation): string {
    if c.documentId != "" then c.documentId else if c.documentTitle != "" then c.documentTitle else c.id
  }

  function GroupAt(groups: seq<Group>, key: string): (i: nat)
    ensures i <= |groups| && (i < |groups| ==> groups[i].key == key)
    ensures forall k | 0 <= k < i :: groups[k].key != key
  {
    if groups == [] then 0
    else
      var n := |groups| - 1;
      var i := GroupAt(groups[..n], key);
      if i < n then i else if groups[n].key == key then n else n + 1
  }

  function Push(groups: seq<Group>, c: Citation): seq<Group> {
    var i := GroupAt(groups, KeyOf(c));
    if i == |groups| then groups + [Group(KeyOf(c), [c])]
    else groups[i := groups[i].(citations := groups[i].citations + [c])]
  }

  /** The Map of groups after all citations, in insertion order. */
  function Grouped(citations: seq<Citation>): seq<Group> {
    if citations == [] then [] else Push(Grouped(citations[..|citations| - 1]), citations[|citations| - 1])
  }

  function WithKey(citations: seq<Citation>, key: string): seq<Citation> {
    if citations == [] then []
    else
      var n := |citations| - 1;
      WithKey(citations[..n], key) + if KeyOf(citations[n]) == key then [citations[n]] else []
  }

  ghost predicate DistinctKeys(groups: seq<Group>) {
    forall i, j | 0 <= i < j < |groups| :: groups[i].key != groups[j].key
  }

  /** One group per document, holding exactly its citations in their order. */
  lemma {:induction false} GroupedIs(citations: seq<Citation>)
    ensures var groups := Grouped(citations);
            && DistinctKeys(groups)
            && (forall i | 0 <= i < |groups| :: groups[i].citations == WithKey(citations, groups[i].key))
            && (forall c | c in citations :: GroupAt(groups, KeyOf(c)) < |groups|)
  {
    hide GroupAt, KeyOf;
    if citations != [] {
      var n := |citations| - 1;
      var c, before := citations[n], Grouped(citations[..n]);
      GroupedIs(citations[..n]);
      var now, p := Push(before, c), GroupAt(before, KeyOf(c));
      forall i | 0 <= i < |now|
        ensures now[i].citations == WithKey(citations, now[i].key)
      {
        if p == |before| && i == p {
          AbsentKey(citations[..n], before, KeyOf(c));
        }
      }
      forall x | x in citations
        ensures GroupAt(now, KeyOf(x)) < |now|
      {
        var q := GroupAt(before, KeyOf(x));
        if x in citations[..n] {
          assert now[q].key == KeyOf(x);
        } else {
          assert x == c && now[p].key == KeyOf(x);
        }
      }
    }
  }

  lemma {:induction false} AbsentKey(citations: seq<Citation>, groups: seq<Group>, key: string)
    requires GroupAt(groups, key) == |groups|
    requires forall c | c in citations :: GroupAt(groups, KeyOf(c)) < |groups|
    ensures WithKey(citations, key) == []
  {
    hide GroupAt, KeyOf;
    if citations != [] {
      AbsentKey(citations[..|citations| - 1], groups, key);
      var last := citations[|citations| - 1];
      assert last in citations;
    }
  }

  function SortedGroups(env: Env, groups: seq<Group>): (r: seq<seq<Citation>>)
    ensures |r| == |groups|
  {
    seq(|groups|, i requires 0 <= i < |groups| => Sort(NotAfter(env), groups[i].citations))
  }

  /** `orderedCitations`. */
  function Ordered(env: Env, citations: seq<Citation>): seq<Citation> {
    Flatten(SortedGroups(env, Grouped(citations)))
  }

  /** The code: push into the group of the document, then sort group by group. */
  method OrderedCitations(env: Env, citations: seq<Citation>) returns (ordered: seq<Citation>)
    ensures ordered == Ordered(env, citations)
  {
    hide GroupAt, KeyOf, Sort;
    var groups: seq<Group> := [];
    for n := 0 to |citations|
      invariant groups == Grouped(citations[..n])
    {
      assert citations[..n + 1][..n] == citations[..n];
      var key := KeyOf(citations[n]);
      var i := GroupAt(groups, key);
      if i < |groups| {
        groups := groups[i := groups[i].(citations := groups[i].citations + [citations[n]])];
      } else {
        groups := groups + [Group(key, [citations[n]])];
      }
    }
    assert citations[..|citations|] == citations;
    ordered := [];
    ghost var sorted := SortedGroups(env, groups);
    for n := 0 to |groups|
      invariant ordered == Flatten(sorted[..n])
    {
      assert sorted[..n + 1][..n] == sorted[..n];
      ordered := ordered + Sort(NotAfter(env), groups[n].citations);
    }
    assert sorted[..|groups|] == sorted;
  }

  // ---------- what the order keeps ----------

  function Total(groups: seq<seq<Citation>>): multiset<Citation> {
    if groups == [] then multiset{} else Total(groups[..|groups| - 1]) + multiset(groups[|groups| - 1])
  }

  lemma {:induction false} FlattenTotal(groups: seq<seq<Citation>>)
    ensures multiset(Flatten(groups)) == Total(groups)
  {
    if groups != [] {
      FlattenTotal(groups[..|groups| - 1]);
    }
  }

  function Members(groups: seq<Group>): (r: seq<seq<Citation>>)
    ensures |r| == |groups|
  {
    seq(|groups|, i requires 0 <= i < |groups| => groups[i].citations)
  }

  lemma {:induction false} TotalUpdate(groups: seq<seq<Citation>>, i: nat, c: Citation)
    requires i < |groups|
    ensures Total(groups[i := groups[i] + [c]]) == Total(groups) + multiset{c}
  {
    var n := |groups| - 1;
    var now := groups[i := groups[i] + [c]];
    if i < n {
      TotalUpdate(groups[..n], i, c);
      assert now[..n] == groups[..n][i := groups[i] + [c]];
    } else {
      assert now[..n] == groups[..n];
    }
  }

  lemma PushTotal(groups: seq<Group>, c: Citation)
    ensures Total(Members(Push(groups, c))) == Total(Members(groups)) + multiset{c}
  {
    hide GroupAt, KeyOf;
    var i := GroupAt(groups, KeyOf(c));
    if i == |groups| {
      assert Members(Push(groups, c))[..i] == Members(groups);
    } else {
      TotalUpdate(Members(groups), i, c);
      hide Total;
      assert Members(Push(groups, c)) == Members(groups)[i := groups[i].citations + [c]];
    }
  }

  lemma {:induction false} GroupedTotal(citations: seq<Citation>)
    ensures Total(Members(Grouped(citations))) == multiset(citations)
  {
    hide Push, Members;
    if citations != [] {
      var n := |citations| - 1;
      GroupedTotal(citations[..n]);
      PushTotal(Grouped(citations[..n]), citations[n]);
      assert citations == citations[..n] + [citations[n]];
    } else {
      assert Total(Members([])) == multiset{} by { NoMembers(); }
    }
  }

  lemma NoMembers()
    ensures Total(Members([])) == multiset{}
  {}

  lemma {:induction false} SortedTotal(env: Env, groups: seq<Group>)
    ensures Total(SortedGroups(env, groups)) == Total(Members(groups))
  {
    if groups != [] {
      var n := |groups| - 1;
      SortedTotal(env, groups[..n]);
      SortMembers(NotAfter(env), groups[n].citations);
      hide Sort;
      assert SortedGroups(env, groups)[..n] == SortedGroups(env, groups[..n]);
      assert Members(groups)[..n] == Members(groups[..n]);
    }
  }

  /** Every citation is shown exactly once. */
  lemma OrderedIsPermutation(env: Env, citations: seq<Citation>)
    ensures multiset(Ordered(env, citations)) == multiset(citations)
  {
    FlattenTotal(SortedGroups(env, Grouped(citations)));
    SortedTotal(env, Grouped(citations));
    GroupedTotal(citations);
    hide Grouped, Sort, Flatten, Total;
  }

  lemma {:induction false} WithKeyOnly(citations: seq<Citation>, key: string)
    ensures forall c | c in WithKey(citations, key) :: KeyOf(c) == key && c in citations
  {
    hide KeyOf;
    if citations != [] {
      WithKeyOnly(citations[..|citations| - 1], key);
    }
  }

  /** The sequence splits into the blocks of the groups. */
  ghost predicate Blocks(parts: seq<seq<Citation>>, keys: seq<string>) {
    && |parts| == |keys|
    && (forall i, j | 0 <= i < j < |keys| :: keys[i] != keys[j])
    && (forall i, c | 0 <= i < |parts| && c in parts[i] :: KeyOf(c) == keys[i])
  }

  lemma {:induction false} FlattenKeys(parts: seq<seq<Citation>>, keys: seq<string>, c: Citation)
    requires Blocks(parts, keys) && c in Flatten(parts)
    ensures KeyOf(c) in keys
  {
    hide KeyOf;
    var n := |parts| - 1;
    if c in parts[n] {
      assert KeyOf(c) == keys[n];
    } else {
      FlattenKeys(parts[..n], keys[..n], c);
    }
  }

  /** Citations of one document stand together, in the order of the comparator. */
  lemma {:induction false} FlattenContiguous(env: Env, parts: seq<seq<Citation>>, keys: seq<string>, i: nat, j: nat,
                                             k: nat)
    requires Blocks(parts, keys) && i <= j <= k < |Flatten(parts)|
    requires KeyOf(Flatten(parts)[i]) == KeyOf(Flatten(parts)[k])
    requires forall m | 0 <= m < |parts| :: Sorted(NotAfter(env), parts[m])
    ensures KeyOf(Flatten(parts)[j]) == KeyOf(Flatten(parts)[i])
    ensures i < k ==> Compare(env, Flatten(parts)[i], Flatten(parts)[k]) <= 0
  {
    hide KeyOf, Compare;
    var n := |parts| - 1;
    var front, last := Flatten(parts[..n]), parts[n];
    assert Flatten(parts) == front + last;
    if k < |front| {
      FlattenContiguous(env, parts[..n], keys[..n], i, j, k);
    } else {
      assert last[k - |front|] in last;
      if i < |front| {
        assert front[i] in front;
        FlattenKeys(parts[..n], keys[..n], front[i]);
        assert false;
      }
      assert last[i - |front|] in last && last[j - |front|] in last;
      if i < k {
        assert NotAfter(env)(last[i - |front|], last[k - |front|]);
      }
    }
  }

  lemma OrderedIsGrouped(env: Env, citations: seq<Citation>, i: nat, j: nat, k: nat)
    requires env.Valid() && i <= j <= k < |Ordered(env, citations)|
    requires KeyOf(Ordered(env, citations)[i]) == KeyOf(Ordered(env, citations)[k])
    ensures KeyOf(Ordered(env, citations)[j]) == KeyOf(Ordered(env, citations)[i])
    ensures i < k ==> Compare(env, Ordered(env, citations)[i], Ordered(env, citations)[k]) <= 0
  {
    hide KeyOf, Compare, Sort, Grouped, TotalPreorder;
    var groups := Grouped(citations);
    var parts := SortedGroups(env, groups);
    var keys := GroupBlocks(env, citations);
    ComparatorIsTotalPreorder(env);
    forall m | 0 <= m < |parts|
      ensures Sorted(NotAfter(env), parts[m])
    {
      SortSorts(NotAfter(env), groups[m].citations);
    }
    FlattenContiguous(env, parts, keys, i, j, k);
  }

  // ---------- the order of the documents ----------

  /** Some citation of document x stands before all of document y. */
  ghost predicate ComesFirst(citations: seq<Citation>, x: string, y: string) {
    exists m: nat :: m < |citations| && KeyOf(citations[m]) == x && forall k | 0 <= k <= m :: KeyOf(citations[k]) != y
  }

  lemma ComesFirstMore(citations: seq<Citation>, n: nat, x: string, y: string)
    requires n <= |citations| && ComesFirst(citations[..n], x, y)
    ensures ComesFirst(citations, x, y)
  {
    hide KeyOf;
    var m: nat :| m < n && KeyOf(citations[..n][m]) == x && forall k | 0 <= k <= m :: KeyOf(citations[..n][k]) != y;
    assert KeyOf(citations[m]) == x;
    forall k | 0 <= k <= m ensures KeyOf(citations[k]) != y {
      assert citations[..n][k] == citations[k];
    }
  }

  lemma {:induction false} GroupsInOrder(citations: seq<Citation>)
    ensures var groups := Grouped(citations);
            && (forall i | 0 <= i < |groups| :: exists c :: c in citations && KeyOf(c) == groups[i].key)
            && forall i, j | 0 <= i < j < |groups| :: ComesFirst(citations, groups[i].key, groups[j].key)
  {
    hide KeyOf, GroupAt, ComesFirst;
    if citations != [] {
      var n := |citations| - 1;
      var before, c := Grouped(citations[..n]), citations[n];
      GroupsInOrder(citations[..n]);
      GroupedIs(citations[..n]);
      var now := Push(before, c);
      PushKeys(before, c);
      forall i | 0 <= i < |now| ensures exists x :: x in citations && KeyOf(x) == now[i].key {
        if i < |before| {
          var x :| x in citations[..n] && KeyOf(x) == before[i].key;
          assert x in citations;
        } else {
          assert c in citations;
        }
      }
      forall i, j | 0 <= i < j < |now| ensures ComesFirst(citations, now[i].key, now[j].key) {
        if j < |before| {
          ComesFirstMore(citations, n, before[i].key, before[j].key);
        } else {
          NewComesLast(citations, n, before, before[i].key);
        }
      }
    }
  }

  lemma PushKeys(before: seq<Group>, c: Citation)
    ensures var now := Push(before, c);
            && |before| <= |now| <= |before| + 1
            && (forall i | 0 <= i < |before| :: now[i].key == before[i].key)
            && (|now| > |before| ==> now[|before|].key == KeyOf(c) && GroupAt(before, KeyOf(c)) == |before|)
  {
    hide KeyOf, GroupAt;
  }

  lemma NewComesLast(citations: seq<Citation>, n: nat, before: seq<Group>, x: string)
    requires n < |citations| && GroupAt(before, KeyOf(citations[n])) == |before|
    requires forall c | c in citations[..n] :: GroupAt(before, KeyOf(c)) < |before|
    requires exists c :: c in citations[..n] && KeyOf(c) == x
    ensures ComesFirst(citations, x, KeyOf(citations[n]))
  {
    hide KeyOf, GroupAt;
    var c :| c in citations[..n] && KeyOf(c) == x;
    var m :| 0 <= m < n && citations[..n][m] == c;
    forall k | 0 <= k <= m ensures KeyOf(citations[k]) != KeyOf(citations[n]) {
      assert citations[k] in citations[..n];
    }
    assert KeyOf(citations[m]) == x;
  }

  lemma {:induction false} FlattenInOrder(parts: seq<seq<Citation>>, keys: seq<string>, i: nat, k: nat)
    returns (p: nat, q: nat)
    requires Blocks(parts, keys) && i <= k < |Flatten(parts)|
    ensures p <= q < |keys| && KeyOf(Flatten(parts)[i]) == keys[p] && KeyOf(Flatten(parts)[k]) == keys[q]
  {
    hide KeyOf;
    var n := |parts| - 1;
    var front, last := Flatten(parts[..n]), parts[n];
    assert Flatten(parts) == front + last;
    if k < |front| {
      p, q := FlattenInOrder(parts[..n], keys[..n], i, k);
    } else {
      q := n;
      assert last[k - |front|] in last;
      if i < |front| {
        var r;
        p, r := FlattenInOrder(parts[..n], keys[..n], i, i);
      } else {
        p := n;
        assert last[i - |front|] in last;
      }
    }
  }

  /** Documents are shown in the order of their first citations. */
  lemma DocumentsInOrder(env: Env, citations: seq<Citation>, i: nat, k: nat)
    requires i < k < |Ordered(env, citations)|
    requires KeyOf(Ordered(env, citations)[i]) != KeyOf(Ordered(env, citations)[k])
    ensures ComesFirst(citations, KeyOf(Ordered(env, citations)[i]), KeyOf(Ordered(env, citations)[k]))
  {
    hide KeyOf, Sort, Grouped, ComesFirst;
    var groups := Grouped(citations);
    var keys := GroupBlocks(env, citations);
    GroupsInOrder(citations);
    var p, q := FlattenInOrder(SortedGroups(env, groups), keys, i, k);
    assert p != q;
  }

  lemma GroupBlocks(env: Env, citations: seq<Citation>) returns (keys: seq<string>)
    ensures Blocks(SortedGroups(env, Grouped(citations)), keys)
    ensures forall m | 0 <= m < |keys| :: keys[m] == Grouped(citations)[m].key
  {
    hide KeyOf, Sort, Grouped;
    var groups := Grouped(citations);
    keys := seq(|groups|, m requires 0 <= m < |groups| => groups[m].key);
    var parts := SortedGroups(env, groups);
    GroupedIs(citations);
    forall m, c | 0 <= m < |parts| && c in parts[m]
      ensures KeyOf(c) == keys[m]
    {
      MemberOf(NotAfter(env), groups[m].citations, c);
      WithKeyOnly(citations, groups[m].key);
    }
  }

  /** A document is known by its id, else by its title, else the citation stands alone. */
  lemma KeyIs(a: Citation, b: Citation)
    requires a.documentId != "" && KeyOf(a) == KeyOf(b)
    ensures a.documentId == if b.documentId != "" then b.documentId
                            else if b.documentTitle != "" then b.documentTitle else b.id
  {}

  // ---------- the clauses of a document ----------

  function ClauseNotAfter(env: Env): (string, string) -> bool {
    (a, b) => CompareClause(env, a, b) <= 0
  }

  /** The clauses of the citations, each at its first place. */
  function ClausesSeen(env: Env, citations: seq<Citation>): seq<string> {
    if citations == [] then []
    else
      var n := |citations| - 1;
      var seen, clause := ClausesSeen(env, citations[..n]), CitationClause(env, citations[n]);
      if clause.Some? && clause.value !in seen then seen + [clause.value] else seen
  }

  /** The `clauses` of `documentReferenceSummaries`. */
  method DocumentClauses(env: Env, citations: seq<Citation>) returns (clauses: seq<string>)
    ensures clauses == Sort(ClauseNotAfter(env), ClausesSeen(env, citations))
  {
    hide CitationClause, Sort;
    clauses := [];
    for n := 0 to |citations|
      invariant clauses == ClausesSeen(env, citations[..n])
    {
      assert citations[..n + 1][..n] == citations[..n];
      var clause := CitationClause(env, citations[n]);
      if clause.Some? && clause.value !in clauses {
        clauses := clauses + [clause.value];
      }
    }
    assert citations[..|citations|] == citations;
    clauses := Sort(ClauseNotAfter(env), clauses);
  }

  lemma {:induction false} ClausesSeenAre(env: Env, citations: seq<Citation>)
    ensures DistinctBy(Self, ClausesSeen(env, citations))
    ensures forall x :: x in ClausesSeen(env, citations) <==> Cited(env, citations, x)
  {
    hide CitationClause;
    if citations != [] {
      var n := |citations| - 1;
      ClausesSeenAre(env, citations[..n]);
      forall x
        ensures Cited(env, citations, x) <==> Cited(env, citations[..n], x) || CitationClause(env, citations[n]) == Some(x)
      {
        CitedSnoc(env, citations, x);
      }
      hide Cited;
    }
  }

  function Self(x: string): string {
    x
  }

  ghost predicate Cited(env: Env, citations: seq<Citation>, clause: string) {
    exists i :: 0 <= i < |citations| && CitationClause(env, citations[i]) == Some(clause)
  }

  lemma CitedSnoc(env: Env, citations: seq<Citation>, x: string)
    requires citations != []
    ensures var n := |citations| - 1;
            Cited(env, citations, x) <==> Cited(env, citations[..n], x) || CitationClause(env, citations[n]) == Some(x)
  {
    hide CitationClause;
    var n := |citations| - 1;
    if Cited(env, citations[..n], x) {
      var i :| 0 <= i < n && CitationClause(env, citations[..n][i]) == Some(x);
      assert CitationClause(env, citations[i]) == Some(x);
    }
    if Cited(env, citations, x) {
      var i :| 0 <= i < |citations| && CitationClause(env, citations[i]) == Some(x);
      if i < n {
        assert CitationClause(env, citations[..n][i]) == Some(x);
      }
    }
  }

  /** They are exactly the clauses cited, each once, in the order of their numbers. */
  lemma ClausesAreSorted(env: Env, citations: seq<Citation>)
    requires env.Valid()
    ensures var clauses := Sort(ClauseNotAfter(env), ClausesSeen(env, citations));
            && Sorted(ClauseNotAfter(env), clauses) && DistinctBy(Self, clauses)
            && forall x :: x in clauses <==> Cited(env, citations, x)
  {
    hide CompareClause, Sort, ClausesSeen, Cited, Sorted, DistinctBy;
    var le, seen := ClauseNotAfter(env), ClausesSeen(env, citations);
    ClausesSeenAre(env, citations);
    assert TotalPreorder(le) by {
      ClausePreorder(env);
    }
    hide TotalPreorder;
    SortSorts(le, seen);
    SortDistinct(le, Self, seen);
    forall x
      ensures x in Sort(le, seen) <==> Cited(env, citations, x)
    {
      MemberOf(le, seen, x);
    }
  }

  lemma ClausePreorder(env: Env)
    requires env.Valid()
    ensures TotalPreorder(ClauseNotAfter(env))
  {
    hide CompareClause;
    var le := ClauseNotAfter(env);
    forall a, b
      ensures le(a, b) || le(b, a)
    {
      ClauseFlips(env, a, b);
    }
    forall a, b, c | le(a, b) && le(b, c)
      ensures le(a, c)
    {
      ClauseChains(env, a, b, c);
    }
  }
}
