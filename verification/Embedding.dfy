/** Embedding chunks through a cache, in batches, with requests of bounded size. */
module Embedding {
  import opened Wrappers
  import opened Sequences
  import Text
  import Chunker
  import Tables

  /** The model `embed` and the hash `sha256` are left abstract. */
  datatype Env = Env(embed: string -> Tables.Vector, sha256: string -> string, batchSize: nat, multimodal: bool) {
    ghost predicate Valid() {
      batchSize >= 1 && forall a, b | sha256(a) == sha256(b) :: a == b
    }
  }

  const MAX_CONTENTS: nat := 20
  const MAX_TRIES: nat := 5
  const HTTP_ERROR := "HTTPError"
  const REJECTED := "DashScopeRequestError"

  function EmbedAll(env: Env, inputs: seq<string>): (r: seq<Tables.Vector>)
    ensures |r| == |inputs|
  {
    seq(|inputs|, i requires 0 <= i < |inputs| => env.embed(inputs[i]))
  }

  lemma EmbedAllAppend(env: Env, a: seq<string>, b: seq<string>)
    ensures EmbedAll(env, a + b) == EmbedAll(env, a) + EmbedAll(env, b)
  {}

  // ---------- the client ----------

  /** The requests since `from` are neither empty nor too large, and together carry the
      contents `texts`, each once and in order. */
  ghost predicate Carried(env: Env, was: seq<seq<string>>, now: seq<seq<string>>, texts: seq<string>, batch: nat) {
    && was <= now
    && Flatten(now) == Flatten(was) + texts
    && forall i | |was| <= i < |now| :: 1 <= |now[i]| <= if env.multimodal then MAX_CONTENTS else batch
  }

  lemma CarriedNothing(env: Env, was: seq<seq<string>>, batch: nat)
    ensures Carried(env, was, was, [], batch)
  {}

  lemma CarriedMore(env: Env, a: seq<seq<string>>, b: seq<seq<string>>, c: seq<seq<string>>, s: seq<string>,
                    t: seq<string>, batch: nat)
    requires Carried(env, a, b, s, batch) && Carried(env, b, c, t, batch)
    ensures Carried(env, a, c, s + t, batch)
  {
    assert Flatten(a) + (s + t) == (Flatten(a) + s) + t;
    hide Flatten;
    forall i | |a| <= i < |c|
      ensures 1 <= |c[i]| <= if env.multimodal then MAX_CONTENTS else batch
    {
      if i < |b| {
        assert c[i] == b[i];
      }
    }
  }

  lemma CarriedOne(env: Env, was: seq<seq<string>>, texts: seq<string>, batch: nat)
    requires 1 <= |texts| <= if env.multimodal then MAX_CONTENTS else batch
    ensures Carried(env, was, was + [texts], texts, batch)
  {
    FlattenSnoc(was, texts);
  }

  /** What the service makes of a request: it answers; the request fails on the way or with a
      server error; or it is rejected or answered with a malformed body. */
  datatype Answer = Answered | Failed | Rejected

  // ---------- how a call goes, by the answers of the service ----------

  /** The answer to request i of a script; past its end every request is answered. */
  function AnswerAt(script: seq<Answer>, i: nat): Answer {
    if i < |script| then script[i] else Answered
  }

  function After(script: seq<Answer>, n: nat): seq<Answer> {
    if n <= |script| then script[n..] else []
  }

  lemma AfterAfter(script: seq<Answer>, a: nat, b: nat)
    ensures After(After(script, a), b) == After(script, a + b)
    ensures AnswerAt(After(script, a), b) == AnswerAt(script, a + b)
  {}

  /** How many requests a try of n inputs takes if each is answered. */
  function RequestsFor(env: Env, n: nat): nat {
    if env.multimodal then (n + MAX_CONTENTS - 1) / MAX_CONTENTS else 1
  }

  datatype Try = Try(requests: nat, outcome: Answer)

  /** A try of k requests ends with the first that is not answered. */
  function TryOf(script: seq<Answer>, k: nat): (t: Try)
    ensures t.requests <= k && (k > 0 ==> t.requests > 0)
    decreases k
  {
    if k == 0 then Try(0, Answered)
    else if AnswerAt(script, 0).Answered? then
      var rest := TryOf(After(script, 1), k - 1);
      Try(rest.requests + 1, rest.outcome)
    else Try(1, AnswerAt(script, 0))
  }

  /** The inputs that many requests cover. */
  function Reach(env: Env, n: nat, requests: nat): nat {
    if env.multimodal && requests * MAX_CONTENTS < n then requests * MAX_CONTENTS else n
  }

  /** The tries of a batch, how the last of them ends, and the answers left. */
  datatype Course = Course(tries: seq<nat>, outcome: Answer, rest: seq<Answer>)

  function BatchCourse(env: Env, script: seq<Answer>, n: nat, left: nat): Course
    requires left > 0
    decreases left
  {
    var t := TryOf(script, RequestsFor(env, n));
    var reached, rest := Reach(env, n, t.requests), After(script, t.requests);
    if !t.outcome.Failed? || left == 1 then Course([reached], t.outcome, rest)
    else
      var more := BatchCourse(env, rest, n, left - 1);
      Course([reached] + more.tries, more.outcome, more.rest)
  }

  /** How a result reads as the answer that decided it. */
  function OutcomeOf<T>(r: Result<T, string>): Answer {
    if r.Ok? then Answered else if r.error == HTTP_ERROR then Failed else Rejected
  }

  /** What tries of these lengths carry, the items from the first on each time. */
  ghost function Tried<T>(items: seq<T>, tries: seq<nat>): seq<T> {
    if tries == [] then []
    else
      var n := tries[|tries| - 1];
      Tried(items, tries[..|tries| - 1]) + if n <= |items| then items[..n] else items
  }

  lemma TriedSnoc<T>(items: seq<T>, tries: seq<nat>, n: nat)
    requires n <= |items|
    ensures Tried(items, tries + [n]) == Tried(items, tries) + items[..n]
  {
    assert (tries + [n])[..|tries|] == tries;
  }

  /** The service answers request after request as `script` says, and always answers once the
      script is used up.  `sent` remembers the requests, `failures` counts the failed ones. */
  class DashScopeClient {
    const env: Env
    var script: seq<Answer>
    ghost var sent: seq<seq<string>>
    ghost var failures: nat

    constructor (env: Env, script: seq<Answer>)
      ensures this.env == env && this.script == script && sent == [] && failures == 0
    {
      this.env := env;
      this.script := script;
      sent, failures := [], 0;
    }

    method Request(inputs: seq<string>) returns (r: Result<seq<Tables.Vector>, string>)
      modifies this
      ensures sent == old(sent) + [inputs]
      ensures script == if old(script) == [] then [] else old(script)[1..]
      ensures var answer := if old(script) == [] then Answered else old(script)[0];
              && r == (match answer
                       case Answered => Ok(EmbedAll(env, inputs))
                       case Failed => Err(HTTP_ERROR)
                       case Rejected => Err(REJECTED))
              && failures == old(failures) + if answer.Failed? then 1 else 0
    {
      sent := sent + [inputs];
      if script != [] {
        var answer := script[0];
        script := script[1..];
        if answer.Failed? {
          failures := failures + 1;
          return Err(HTTP_ERROR);
        } else if answer.Rejected? {
          return Err(REJECTED);
        }
      }
      return Ok(EmbedAll(env, inputs));
    }

    /** Request after request; the first that is not answered ends the try. */
    method EmbedMultimodalBatch(inputs: seq<string>)
        returns (r: Result<seq<Tables.Vector>, string>, ghost reached: nat)
      requires env.multimodal && inputs != []
      modifies this
      ensures var t := TryOf(old(script), RequestsFor(env, |inputs|));
              && OutcomeOf(r) == t.outcome && reached == Reach(env, |inputs|, t.requests)
              && script == After(old(script), t.requests)
      ensures 1 <= reached <= |inputs| && Carried(env, old(sent), sent, inputs[..reached], |inputs|)
      ensures r.Ok? ==> r.value == EmbedAll(env, inputs) && reached == |inputs|
      ensures failures == old(failures) + if r == Err(HTTP_ERROR) then 1 else 0
    {
      hide Flatten, Carried, EmbedAll, TryOf, After, AnswerAt;
      var embeddings := [];
      var offset := 0;
      ghost var done, k: nat := 0, RequestsFor(env, |inputs|);
      CarriedNothing(env, sent, |inputs|);
      NothingEmbedded(env);
      TryStart(script, k);
      assert inputs[..0] == [];
      while offset < |inputs|
        invariant 0 <= offset <= |inputs| && failures == old(failures)
        invariant done <= k && offset == Reach(env, |inputs|, done) && script == After(old(script), done)
        invariant TryOf(old(script), k) == Try(done + TryOf(script, k - done).requests, TryOf(script, k - done).outcome)
        invariant embeddings == EmbedAll(env, inputs[..offset])
        invariant Carried(env, old(sent), sent, inputs[..offset], |inputs|)
      {
        var end := if offset + MAX_CONTENTS <= |inputs| then offset + MAX_CONTENTS else |inputs|;
        var batch := inputs[offset..end];
        assert inputs[..end] == inputs[..offset] + batch;
        CarriedOne(env, sent, batch, |inputs|);
        CarriedMore(env, old(sent), sent, sent + [batch], inputs[..offset], batch, |inputs|);
        EmbedAllAppend(env, inputs[..offset], batch);
        TryNext(old(script), done, k);
        assert end == Reach(env, |inputs|, done + 1);
        ghost var asked := script;
        var answer := Request(batch);
        RequestIs(asked, script);
        done := done + 1;
        if answer.Err? {
          return Err(answer.error), end;
        }
        embeddings := embeddings + answer.value;
        offset := end;
      }
      TryStart(script, k - done);
      assert inputs[..offset] == inputs;
      return Ok(embeddings), offset;
    }

    /** One try of the batch. */
    method TryBatch(inputs: seq<string>) returns (r: Result<seq<Tables.Vector>, string>, ghost reached: nat)
      requires inputs != []
      modifies this
      ensures var t := TryOf(old(script), RequestsFor(env, |inputs|));
              && OutcomeOf(r) == t.outcome && reached == Reach(env, |inputs|, t.requests)
              && script == After(old(script), t.requests)
      ensures 1 <= reached <= |inputs| && Carried(env, old(sent), sent, inputs[..reached], |inputs|)
      ensures r.Ok? ==> r.value == EmbedAll(env, inputs) && reached == |inputs|
      ensures failures == old(failures) + if r == Err(HTTP_ERROR) then 1 else 0
    {
      if env.multimodal {
        r, reached := EmbedMultimodalBatch(inputs);
      } else {
        CarriedOne(env, sent, inputs, |inputs|);
        assert inputs[..|inputs|] == inputs;
        hide Carried, EmbedAll;
        ghost var asked := script;
        r := Request(inputs);
        reached := |inputs|;
      }
    }

    /** `embed_batch` with its retries: a failed request starts the whole batch again, at most
        five times; a rejected one does not. */
    method EmbedBatch(inputs: seq<string>) returns (r: Result<seq<Tables.Vector>, string>, ghost tries: seq<nat>)
      requires inputs != []
      modifies this
      ensures failures >= old(failures) && Attempts(|inputs|, tries, failures - old(failures), r.Ok?)
      ensures r == Err(HTTP_ERROR) <==> failures - old(failures) == 5
      ensures Carried(env, old(sent), sent, Tried(inputs, tries), |inputs|)
      ensures r.Ok? ==> r.value == EmbedAll(env, inputs)
      ensures Course(tries, OutcomeOf(r), script) == BatchCourse(env, old(script), |inputs|, MAX_TRIES)
    {
      hide Flatten, Carried, EmbedAll, Tried, TryOf, After, GoesOn, BatchCourse, Reach, RequestsFor;
      var attempt := 1;
      tries := [];
      CarriedNothing(env, sent, |inputs|);
      NothingTried(inputs);
      CourseStart(env, script, |inputs|);
      while true
        invariant 1 <= attempt <= MAX_TRIES && |tries| == attempt - 1 && failures == old(failures) + |tries|
        invariant GoesOn(env, old(script), script, |inputs|, tries, MAX_TRIES + 1 - attempt)
        invariant forall i | 0 <= i < |tries| :: 1 <= tries[i] <= |inputs|
        invariant Carried(env, old(sent), sent, Tried(inputs, tries), |inputs|)
        decreases MAX_TRIES - attempt
      {
        ghost var before := sent;
        ghost var reached: nat;
        ghost var asked := script;
        r, reached := TryBatch(inputs);
        CourseNext(env, old(script), asked, |inputs|, tries, MAX_TRIES + 1 - attempt);
        TriedSnoc(inputs, tries, reached);
        CarriedMore(env, old(sent), before, sent, Tried(inputs, tries), inputs[..reached], |inputs|);
        tries := tries + [reached];
        if r != Err(HTTP_ERROR) || attempt == MAX_TRIES {
          return;
        }
        attempt := attempt + 1;
      }
    }
  }

  /** The tries made so far and those to come are the batch's. */
  ghost predicate GoesOn(env: Env, was: seq<Answer>, now: seq<Answer>, n: nat, tries: seq<nat>, left: nat) {
    left > 0 &&
    var more := BatchCourse(env, now, n, left);
    BatchCourse(env, was, n, MAX_TRIES) == Course(tries + more.tries, more.outcome, more.rest)
  }

  lemma CourseStart(env: Env, script: seq<Answer>, n: nat)
    ensures GoesOn(env, script, script, n, [], MAX_TRIES)
  {
    hide BatchCourse;
    var c := BatchCourse(env, script, n, MAX_TRIES);
    assert [] + c.tries == c.tries;
  }

  lemma CourseNext(env: Env, was: seq<Answer>, now: seq<Answer>, n: nat, tries: seq<nat>, left: nat)
    requires GoesOn(env, was, now, n, tries, left)
    ensures var t := TryOf(now, RequestsFor(env, n));
            var reached, rest := Reach(env, n, t.requests), After(now, t.requests);
            if !t.outcome.Failed? || left == 1
            then BatchCourse(env, was, n, MAX_TRIES) == Course(tries + [reached], t.outcome, rest)
            else GoesOn(env, was, rest, n, tries + [reached], left - 1)
  {
    hide TryOf, After, Reach, RequestsFor;
    CourseStep(env, now, n, left);
    hide BatchCourse;
    var t := TryOf(now, RequestsFor(env, n));
    if t.outcome.Failed? && left > 1 {
      var more := BatchCourse(env, After(now, t.requests), n, left - 1);
      assert tries + ([Reach(env, n, t.requests)] + more.tries) == tries + [Reach(env, n, t.requests)] + more.tries;
    }
  }

  lemma CourseStep(env: Env, script: seq<Answer>, n: nat, left: nat)
    requires left > 0
    ensures var t := TryOf(script, RequestsFor(env, n));
            var reached, rest := Reach(env, n, t.requests), After(script, t.requests);
            BatchCourse(env, script, n, left) ==
            if !t.outcome.Failed? || left == 1 then Course([reached], t.outcome, rest)
            else
              var more := BatchCourse(env, rest, n, left - 1);
              Course([reached] + more.tries, more.outcome, more.rest)
  {}

  lemma TryStart(script: seq<Answer>, k: nat)
    ensures After(script, 0) == script
    ensures TryOf(script, 0) == Try(0, Answered)
    ensures TryOf(script, k) == Try(0 + TryOf(script, k - 0).requests, TryOf(script, k - 0).outcome)
  {}

  /** A try that has come to request `done` goes on with its answer. */
  lemma TryNext(script: seq<Answer>, done: nat, k: nat)
    requires done < k
    ensures var now, answer := TryOf(After(script, done), k - done), AnswerAt(After(script, done), 0);
            now == if answer.Answered?
                   then Try(1 + TryOf(After(script, done + 1), k - done - 1).requests,
                            TryOf(After(script, done + 1), k - done - 1).outcome)
                   else Try(1, answer)
    ensures After(After(script, done), 1) == After(script, done + 1)
  {
    AfterAfter(script, done, 1);
  }

  lemma RequestIs(was: seq<Answer>, now: seq<Answer>)
    requires now == if was == [] then [] else was[1..]
    ensures now == After(was, 1) && AnswerAt(was, 0) == if was == [] then Answered else was[0]
  {}

  lemma NothingTried<T>(items: seq<T>)
    ensures Tried(items, []) == []
  {}

  /** Tries of a batch of n inputs: one to five, each reaching the first input; every failed
      request ends one, and only the last can be rejected or answered to the end. */
  ghost predicate Attempts(n: nat, tries: seq<nat>, failures: int, done: bool) {
    && 1 <= |tries| <= MAX_TRIES
    && (forall i | 0 <= i < |tries| :: 1 <= tries[i] <= n)
    && (failures == |tries| - 1 || (failures == |tries| == MAX_TRIES && !done))
    && (done ==> tries[|tries| - 1] == n)
  }

  lemma NothingEmbedded(env: Env)
    ensures EmbedAll(env, []) == []
  {}

  // ---------- the indexer ----------

  type Cache = map<string, Tables.Vector>

  function Lookup(memory: Cache, shared: Option<Cache>, sha: string): Option<Tables.Vector> {
    if sha in memory then Some(memory[sha])
    else if shared.Some? && sha in shared.value then Some(shared.value[sha])
    else None
  }

  /** Whatever the caches hold under the hash of a content is its embedding. */
  ghost predicate Agrees(env: Env, memory: Cache, shared: Option<Cache>) {
    forall text :: Lookup(memory, shared, env.sha256(text)).Some? ==>
                     Lookup(memory, shared, env.sha256(text)) == Some(env.embed(text))
  }

  ghost predicate Hashed(env: Env, chunks: seq<Chunker.Chunk>) {
    forall i | 0 <= i < |chunks| :: chunks[i].sha256 == env.sha256(chunks[i].content)
  }

  function ContentsOf(chunks: seq<Chunker.Chunk>): (r: seq<string>)
    ensures |r| == |chunks|
  {
    seq(|chunks|, i requires 0 <= i < |chunks| => chunks[i].content)
  }

  /** The positions whose hash no cache knows, in order. */
  function Pending(chunks: seq<Chunker.Chunk>, memory: Cache, shared: Option<Cache>): seq<nat> {
    if chunks == [] then []
    else
      var n := |chunks| - 1;
      Pending(chunks[..n], memory, shared) + if Lookup(memory, shared, chunks[n].sha256).None? then [n] else []
  }

  function TextsAt(chunks: seq<Chunker.Chunk>, positions: seq<nat>): (r: seq<string>)
    requires forall i | 0 <= i < |positions| :: positions[i] < |chunks|
    ensures |r| == |positions|
  {
    seq(|positions|, i requires 0 <= i < |positions| => chunks[positions[i]].content)
  }

  lemma TextsSlice(chunks: seq<Chunker.Chunk>, positions: seq<nat>, from: nat, to: nat)
    requires (forall i | 0 <= i < |positions| :: positions[i] < |chunks|) && from <= to <= |positions|
    ensures forall i | 0 <= i < |positions[from..to]| :: positions[from..to][i] < |chunks|
    ensures TextsAt(chunks, positions)[from..to] == TextsAt(chunks, positions[from..to])
  {}

  lemma NoTexts(chunks: seq<Chunker.Chunk>)
    ensures TextsAt(chunks, []) == []
  {}

  /** Every uncached position is pending ... */
  lemma {:induction false} PendingAll(chunks: seq<Chunker.Chunk>, memory: Cache, shared: Option<Cache>, k: nat)
    requires k < |chunks| && Lookup(memory, shared, chunks[k].sha256).None?
    ensures k in Pending(chunks, memory, shared)
  {
    hide Lookup;
    var n := |chunks| - 1;
    if k < n {
      PendingAll(chunks[..n], memory, shared, k);
    }
  }

  /** ... exactly once, in order, and no other. */
  lemma {:induction false} PendingOnly(chunks: seq<Chunker.Chunk>, memory: Cache, shared: Option<Cache>)
    ensures Uncached(chunks, Pending(chunks, memory, shared), memory, shared)
  {
    if chunks != [] {
      var n := |chunks| - 1;
      PendingOnly(chunks[..n], memory, shared);
      var before := Pending(chunks[..n], memory, shared);
      forall i | 0 <= i < |before|
        ensures before[i] < n && Lookup(memory, shared, chunks[before[i]].sha256).None?
      {
        assert chunks[..n][before[i]] == chunks[before[i]];
      }
    }
  }

  ghost predicate Uncached(chunks: seq<Chunker.Chunk>, positions: seq<nat>, memory: Cache, shared: Option<Cache>) {
    && (forall i | 0 <= i < |positions| ::
          positions[i] < |chunks| && Lookup(memory, shared, chunks[positions[i]].sha256).None?)
    && Text.Ascending(positions)
  }

  lemma PendingSnoc(chunks: seq<Chunker.Chunk>, n: nat, memory: Cache, shared: Option<Cache>)
    requires n < |chunks|
    ensures Pending(chunks[..n + 1], memory, shared) ==
            Pending(chunks[..n], memory, shared) + if Lookup(memory, shared, chunks[n].sha256).None? then [n] else []
  {
    assert chunks[..n + 1][..n] == chunks[..n];
  }

  /** The vectors known so far: right where known, and known wherever nothing is pending. */
  ghost predicate Filled(env: Env, chunks: seq<Chunker.Chunk>, vectors: seq<Option<Tables.Vector>>, pending: seq<nat>) {
    && |vectors| == |chunks|
    && (forall i | 0 <= i < |vectors| && vectors[i].Some? :: vectors[i].value == env.embed(chunks[i].content))
    && (forall i: nat | i < |vectors| && vectors[i].None? :: i in pending)
  }

  // ---------- how often each position is requested ----------

  lemma {:induction false} TextsTried(chunks: seq<Chunker.Chunk>, positions: seq<nat>, tries: seq<nat>)
    requires forall i | 0 <= i < |positions| :: positions[i] < |chunks|
    ensures forall i | 0 <= i < |Tried<nat>(positions, tries)| :: Tried<nat>(positions, tries)[i] < |chunks|
    ensures TextsAt(chunks, Tried<nat>(positions, tries)) == Tried(TextsAt(chunks, positions), tries)
  {
    if tries != [] {
      var n := tries[|tries| - 1];
      TextsTried(chunks, positions, tries[..|tries| - 1]);
      var before := Tried<nat>(positions, tries[..|tries| - 1]);
      var last := if n <= |positions| then positions[..n] else positions;
      assert Tried<nat>(positions, tries) == before + last;
      assert TextsAt(chunks, before + last) == TextsAt(chunks, before) + TextsAt(chunks, last);
      if n <= |positions| {
        assert TextsAt(chunks, positions[..n]) == TextsAt(chunks, positions)[..n];
      }
    }
  }

  lemma {:induction false} CountAscending(positions: seq<nat>, p: nat)
    requires Text.Ascending(positions)
    ensures multiset(positions)[p] == if p in positions then 1 else 0
  {
    if positions != [] {
      var n := |positions| - 1;
      CountAscending(positions[..n], p);
      assert positions == positions[..n] + [positions[n]];
    }
  }

  lemma CountPrefix(positions: seq<nat>, n: nat, p: nat)
    requires Text.Ascending(positions) && n <= |positions|
    ensures multiset(positions[..n])[p] <= if p in positions then 1 else 0
    ensures multiset(positions[..n])[p] <= multiset(positions)[p]
  {
    CountAscending(positions[..n], p);
    CountAscending(positions, p);
  }

  /** Each item at most once per try, and at least once if the last try reaches all of them. */
  lemma {:induction false} CountTried(positions: seq<nat>, tries: seq<nat>, p: nat)
    requires Text.Ascending(positions) && forall i | 0 <= i < |tries| :: tries[i] <= |positions|
    ensures multiset(Tried<nat>(positions, tries))[p] <= if p in positions then |tries| else 0
    ensures tries != [] && tries[|tries| - 1] == |positions| && p in positions ==>
              multiset(Tried<nat>(positions, tries))[p] >= 1
  {
    if tries != [] {
      var n := |tries| - 1;
      CountTried(positions, tries[..n], p);
      CountPrefix(positions, tries[n], p);
      CountAscending(positions, p);
      if tries[n] == |positions| {
        assert positions[..tries[n]] == positions;
      }
    }
  }

  /** A second try requests the first item again. */
  lemma TriedAgain(positions: seq<nat>, tries: seq<nat>)
    requires |tries| >= 2 && positions != [] && forall i | 0 <= i < |tries| :: 1 <= tries[i] <= |positions|
    ensures multiset(Tried<nat>(positions, tries))[positions[0]] >= 2
  {
    var n := |tries| - 1;
    FirstTried(positions, tries[..n]);
    assert positions[..tries[n]][0] == positions[0];
  }

  lemma {:induction false} FirstTried(positions: seq<nat>, tries: seq<nat>)
    requires tries != [] && positions != [] && forall i | 0 <= i < |tries| :: 1 <= tries[i] <= |positions|
    ensures positions[0] in Tried<nat>(positions, tries)
  {
    assert positions[..tries[|tries| - 1]][0] == positions[0];
  }

  /** `order` lists the positions requested so far, `positions` those whose batches are done;
      `failures` requests failed on the way. */
  ghost predicate Requested(order: seq<nat>, positions: seq<nat>, failures: nat) {
    && (forall p :: multiset(order)[p] <= if p in positions then MAX_TRIES else 0)
    && (forall p | p in positions :: 1 <= multiset(order)[p])
    && (failures == 0 ==> order == positions)
    && (failures > 0 ==> exists p :: multiset(order)[p] >= 2)
  }

  lemma RequestedMore(order: seq<nat>, before: seq<nat>, failures: nat, batch: seq<nat>, tries: seq<nat>, more: nat)
    requires Requested(order, before, failures) && Text.Ascending(before + batch) && batch != []
    requires Attempts(|batch|, tries, more, true)
    ensures Requested(order + Tried<nat>(batch, tries), before + batch, failures + more)
  {
    hide Tried;
    var now := order + Tried<nat>(batch, tries);
    BatchAscends(before, batch);
    forall p
      ensures multiset(now)[p] <= if p in before + batch then MAX_TRIES else 0
      ensures p in before + batch ==> 1 <= multiset(now)[p]
    {
      FailingCount(order, before, batch, failures, tries, p);
      CountTried(batch, tries, p);
    }
    if more > 0 {
      TriedAgain(batch, tries);
      assert multiset(now)[batch[0]] >= 2;
    } else if failures == 0 {
      OneTry(batch, tries);
    } else {
      var p :| multiset(order)[p] >= 2;
      assert multiset(now)[p] >= 2;
    }
  }

  lemma BatchAscends(before: seq<nat>, batch: seq<nat>)
    requires Text.Ascending(before + batch)
    ensures Text.Ascending(batch) && forall p :: !(p in before && p in batch)
  {
    var all := before + batch;
    forall i, j | 0 <= i < j < |batch|
      ensures batch[i] < batch[j]
    {
      assert all[|before| + i] < all[|before| + j];
    }
    forall i, j | 0 <= i < |before| && 0 <= j < |batch|
      ensures before[i] < batch[j]
    {
      assert all[i] < all[|before| + j];
    }
  }

  lemma OneTry(batch: seq<nat>, tries: seq<nat>)
    requires |tries| == 1 && tries[0] == |batch|
    ensures Tried<nat>(batch, tries) == batch
  {
    assert tries[..0] == [] && batch[..|batch|] == batch;
  }

  /** The positions before `from` are requested, those after `to` are not. */
  ghost predicate Reaches(order: seq<nat>, positions: seq<nat>, from: nat, to: nat)
    requires from <= to <= |positions|
  {
    && (forall p :: multiset(order)[p] <= if p in positions[..to] then MAX_TRIES else 0)
    && (forall p | p in positions[..from] :: 1 <= multiset(order)[p])
  }

  /** All batches, or those before the one that is given up, which may be requested in part. */
  ghost predicate RequestedUpTo(order: seq<nat>, positions: seq<nat>, failures: nat, batch: nat) {
    && (exists from: nat, to: nat ::
          from <= to <= |positions| && to <= from + batch && Reaches(order, positions, from, to))
    && (failures == 0 ==> order <= positions)
  }

  lemma RequestedAt(order: seq<nat>, positions: seq<nat>, failures: nat, p: nat)
    requires Requested(order, positions, failures)
    ensures multiset(order)[p] <= if p in positions then MAX_TRIES else 0
    ensures p in positions ==> 1 <= multiset(order)[p]
  {}

  lemma FailingCount(order: seq<nat>, before: seq<nat>, batch: seq<nat>, failures: nat, tries: seq<nat>, p: nat)
    requires Text.Ascending(before + batch) && Requested(order, before, failures)
    requires |tries| <= MAX_TRIES && forall i | 0 <= i < |tries| :: tries[i] <= |batch|
    ensures var n := multiset(order + Tried<nat>(batch, tries))[p];
            n <= (if p in before + batch then MAX_TRIES else 0) && (p in before ==> 1 <= n)
  {
    hide *;
    BatchAscends(before, batch);
    RequestedAt(order, before, failures, p);
    CountTried(batch, tries, p);
    assert multiset(order + Tried<nat>(batch, tries))[p] == multiset(order)[p] + multiset(Tried<nat>(batch, tries))[p];
    assert p in before + batch <==> p in before || p in batch;
  }

  lemma ReachesFailing(order: seq<nat>, before: seq<nat>, batch: seq<nat>, positions: seq<nat>, failures: nat,
                       tries: seq<nat>)
    requires before + batch <= positions && Text.Ascending(before + batch) && Requested(order, before, failures)
    requires |tries| <= MAX_TRIES && forall i | 0 <= i < |tries| :: tries[i] <= |batch|
    ensures Reaches(order + Tried<nat>(batch, tries), positions, |before|, |before| + |batch|)
  {
    hide Tried, Requested, Text.Ascending;
    assert positions[..|before| + |batch|] == before + batch && positions[..|before|] == before;
    forall p
      ensures var n := multiset(order + Tried<nat>(batch, tries))[p];
              n <= (if p in before + batch then MAX_TRIES else 0) && (p in before ==> 1 <= n)
    {
      FailingCount(order, before, batch, failures, tries, p);
    }
  }

  lemma OrderFailing(order: seq<nat>, before: seq<nat>, batch: seq<nat>, positions: seq<nat>, tries: seq<nat>)
    requires before + batch <= positions && Requested(order, before, 0) && |tries| == 1 && tries[0] <= |batch|
    ensures order + Tried<nat>(batch, tries) <= positions
  {
    hide Tried, Requested;
    AllInOrder(order, before, 0);
    OneShort(batch, tries);
  }

  lemma RequestedFailing(order: seq<nat>, positions: seq<nat>, offset: nat, end: nat, failures: nat, tries: seq<nat>,
                         more: nat, batch: nat)
    requires offset < end <= |positions| && end <= offset + batch && Text.Ascending(positions)
    requires Requested(order, positions[..offset], failures) && Attempts(end - offset, tries, more, false)
    ensures RequestedUpTo(order + Tried<nat>(positions[offset..end], tries), positions, failures + more, batch)
  {
    hide Tried, Requested, Text.Ascending, Reaches;
    BeforeAscends(positions, offset, end);
    assert positions[..offset] + positions[offset..end] == positions[..end];
    ReachesFailing(order, positions[..offset], positions[offset..end], positions, failures, tries);
    if failures + more == 0 {
      OrderFailing(order, positions[..offset], positions[offset..end], positions, tries);
    }
  }

  lemma BatchDone(order: seq<nat>, positions: seq<nat>, offset: nat, end: nat, failures: nat, tries: seq<nat>, more: nat)
    requires offset < end <= |positions| && Text.Ascending(positions)
    requires Requested(order, positions[..offset], failures) && Attempts(end - offset, tries, more, true)
    ensures Requested(order + Tried<nat>(positions[offset..end], tries), positions[..end], failures + more)
    ensures positions[offset..] == positions[offset..end] + positions[end..]
    ensures positions[..offset] + positions[offset..end] == positions[..end]
  {
    hide Tried, Requested, Text.Ascending;
    BeforeAscends(positions, offset, end);
    RequestedMore(order, positions[..offset], failures, positions[offset..end], tries, more);
    assert positions[..offset] + positions[offset..end] == positions[..end];
  }

  lemma AllInOrder(order: seq<nat>, positions: seq<nat>, failures: nat)
    requires Requested(order, positions, failures)
    ensures failures == 0 ==> order == positions
  {}

  lemma OneShort(batch: seq<nat>, tries: seq<nat>)
    requires |tries| == 1 && tries[0] <= |batch|
    ensures Tried<nat>(batch, tries) == batch[..tries[0]]
  {
    assert tries[..0] == [];
  }

  // ---------- how a whole call goes ----------

  datatype Call = Call(order: seq<nat>, outcome: Answer, rest: seq<Answer>)

  function BatchOf(env: Env, n: nat): nat {
    if n < env.batchSize then n else env.batchSize
  }

  /** Batch after batch: the positions requested, how the call ends, and the answers left. */
  ghost function CallCourse(env: Env, script: seq<Answer>, positions: seq<nat>): Call
    requires env.batchSize > 0
    decreases |positions|
  {
    if positions == [] then Call([], Answered, script)
    else
      var n := BatchOf(env, |positions|);
      var c := BatchCourse(env, script, n, MAX_TRIES);
      var sent := Tried<nat>(positions[..n], c.tries);
      if c.outcome.Answered? then
        var more := CallCourse(env, c.rest, positions[n..]);
        Call(sent + more.order, more.outcome, more.rest)
      else Call(sent, c.outcome, c.rest)
  }

  /** The call succeeds: every batch of n positions does, one after the other. */
  predicate Succeeds(env: Env, script: seq<Answer>, n: nat)
    requires env.batchSize > 0
    decreases n
  {
    n == 0 ||
    var c := BatchCourse(env, script, BatchOf(env, n), MAX_TRIES);
    c.outcome.Answered? && Succeeds(env, c.rest, n - BatchOf(env, n))
  }

  lemma {:induction false} CallSucceeds(env: Env, script: seq<Answer>, positions: seq<nat>)
    requires env.batchSize > 0
    ensures CallCourse(env, script, positions).outcome.Answered? <==> Succeeds(env, script, |positions|)
    decreases |positions|
  {
    hide BatchCourse, Tried;
    if positions != [] {
      var n := BatchOf(env, |positions|);
      CallSucceeds(env, BatchCourse(env, script, n, MAX_TRIES).rest, positions[n..]);
    }
  }

  /** What has been requested and what is still to come is the call's course. */
  ghost predicate CallGoesOn(env: Env, was: seq<Answer>, now: seq<Answer>, positions: seq<nat>, offset: nat,
                             order: seq<nat>)
    requires offset <= |positions|
  {
    env.batchSize > 0 &&
    var more := CallCourse(env, now, positions[offset..]);
    CallCourse(env, was, positions) == Call(order + more.order, more.outcome, more.rest)
  }

  lemma CallStart(env: Env, script: seq<Answer>, positions: seq<nat>)
    requires env.batchSize > 0
    ensures CallGoesOn(env, script, script, positions, 0, [])
  {
    hide CallCourse;
    assert positions[0..] == positions;
    assert [] + CallCourse(env, script, positions).order == CallCourse(env, script, positions).order;
  }

  lemma CallNext(env: Env, was: seq<Answer>, now: seq<Answer>, positions: seq<nat>, offset: nat, end: nat,
                 order: seq<nat>)
    requires offset < end <= |positions| && end == offset + BatchOf(env, |positions| - offset)
    requires CallGoesOn(env, was, now, positions, offset, order)
    ensures var c := BatchCourse(env, now, end - offset, MAX_TRIES);
            var sent := order + Tried<nat>(positions[offset..end], c.tries);
            if c.outcome.Answered? then CallGoesOn(env, was, c.rest, positions, end, sent)
            else CallCourse(env, was, positions) == Call(sent, c.outcome, c.rest)
  {
    hide BatchCourse, Tried;
    var todo, n := positions[offset..], end - offset;
    assert todo[..n] == positions[offset..end] && todo[n..] == positions[end..];
    CallStep(env, now, todo);
    hide CallCourse;
    var c := BatchCourse(env, now, n, MAX_TRIES);
    var sent := Tried<nat>(todo[..n], c.tries);
    if c.outcome.Answered? {
      var more := CallCourse(env, c.rest, todo[n..]);
      assert order + (sent + more.order) == order + sent + more.order;
    }
  }

  lemma CallStep(env: Env, script: seq<Answer>, positions: seq<nat>)
    requires env.batchSize > 0
    ensures CallCourse(env, script, positions) ==
            if positions == [] then Call([], Answered, script)
            else
              var n := BatchOf(env, |positions|);
              var c := BatchCourse(env, script, n, MAX_TRIES);
              var sent := Tried<nat>(positions[..n], c.tries);
              if c.outcome.Answered? then
                var more := CallCourse(env, c.rest, positions[n..]);
                Call(sent + more.order, more.outcome, more.rest)
              else Call(sent, c.outcome, c.rest)
  {
    hide BatchCourse, Tried;
  }

  lemma CallDone(env: Env, was: seq<Answer>, now: seq<Answer>, positions: seq<nat>, order: seq<nat>)
    requires CallGoesOn(env, was, now, positions, |positions|, order)
    ensures CallCourse(env, was, positions) == Call(order, Answered, now)
  {
    CallStep(env, now, []);
    assert positions[|positions|..] == [] && order + [] == order;
    hide CallCourse;
  }

  lemma NothingRequested()
    ensures Requested([], [], 0)
  {}

  lemma CarriedLarger(env: Env, was: seq<seq<string>>, now: seq<seq<string>>, texts: seq<string>, batch: nat,
                      larger: nat)
    requires Carried(env, was, now, texts, batch) && batch <= larger
    ensures Carried(env, was, now, texts, larger)
  {}

  lemma CacheAfterSet(env: Env, memory: Cache, shared: Option<Cache>, text: string)
    requires env.Valid() && Agrees(env, memory, shared)
    ensures var sha, v := env.sha256(text), env.embed(text);
            Agrees(env, memory[sha := v], if shared.Some? then Some(shared.value[sha := v]) else None)
  {}

  /** The caches answer every lookup alike. */
  ghost predicate SameLookups(now: Cache, was: Cache, shared: Option<Cache>) {
    forall x :: Lookup(now, shared, x) == Lookup(was, shared, x)
  }

  lemma LookupsSame(was: Cache, shared: Option<Cache>)
    ensures SameLookups(was, was, shared)
  {}

  lemma SameLookup(now: Cache, was: Cache, shared: Option<Cache>, x: string)
    requires SameLookups(now, was, shared)
    ensures Lookup(now, shared, x) == Lookup(was, shared, x)
  {}

  lemma SameTrans(a: Cache, b: Cache, c: Cache, shared: Option<Cache>)
    requires SameLookups(a, b, shared) && SameLookups(b, c, shared)
    ensures SameLookups(a, c, shared)
  {
    hide Lookup;
  }

  lemma AgreesSame(env: Env, now: Cache, was: Cache, shared: Option<Cache>)
    requires Agrees(env, was, shared) && SameLookups(now, was, shared)
    ensures Agrees(env, now, shared)
  {
    hide Lookup;
  }

  lemma NothingPending(memory: Cache, shared: Option<Cache>)
    ensures Pending([], memory, shared) == []
  {}

  lemma ScanFilled(env: Env, chunks: seq<Chunker.Chunk>, vectors: seq<Option<Tables.Vector>>, memory: Cache,
                   shared: Option<Cache>)
    requires Hashed(env, chunks) && Agrees(env, memory, shared) && |vectors| == |chunks|
    requires forall i | 0 <= i < |chunks| :: vectors[i] == Lookup(memory, shared, chunks[i].sha256)
    ensures Filled(env, chunks, vectors, Pending(chunks, memory, shared))
  {
    hide Lookup, Pending;
    forall i: nat | i < |vectors| && vectors[i].None?
      ensures i in Pending(chunks, memory, shared)
    {
      PendingAll(chunks, memory, shared, i);
    }
  }

  /** The hashes of these chunks are in the indexer's cache, and in the shared one if there is one. */
  ghost predicate Cached(chunks: seq<Chunker.Chunk>, positions: seq<nat>, memory: Cache, shared: Option<Cache>) {
    forall i | 0 <= i < |positions| && positions[i] < |chunks| ::
      && chunks[positions[i]].sha256 in memory
      && (shared.Some? ==> chunks[positions[i]].sha256 in shared.value)
  }

  /** No hash is dropped from a cache. */
  ghost predicate Keeps(wasMemory: Cache, wasShared: Option<Cache>, memory: Cache, shared: Option<Cache>) {
    && wasMemory.Keys <= memory.Keys
    && (wasShared.Some? <==> shared.Some?)
    && (shared.Some? ==> wasShared.value.Keys <= shared.value.Keys)
  }

  lemma KeepsAll(chunks: seq<Chunker.Chunk>, memory: Cache, shared: Option<Cache>)
    ensures Keeps(memory, shared, memory, shared) && Cached(chunks, [], memory, shared)
  {}

  lemma CachedMore(chunks: seq<Chunker.Chunk>, a: seq<nat>, b: seq<nat>, firstMemory: Cache, firstShared: Option<Cache>,
                   wasMemory: Cache, wasShared: Option<Cache>, memory: Cache, shared: Option<Cache>)
    requires Cached(chunks, a, wasMemory, wasShared) && Cached(chunks, b, memory, shared)
    requires Keeps(firstMemory, firstShared, wasMemory, wasShared) && Keeps(wasMemory, wasShared, memory, shared)
    ensures Cached(chunks, a + b, memory, shared) && Keeps(firstMemory, firstShared, memory, shared)
  {}

  lemma AllCached(chunks: seq<Chunker.Chunk>, positions: seq<nat>, wasMemory: Cache, wasShared: Option<Cache>,
                  memory: Cache, shared: Option<Cache>)
    requires forall i | 0 <= i < |chunks| && i !in positions :: chunks[i].sha256 in wasMemory
    requires Cached(chunks, positions, memory, shared) && Keeps(wasMemory, wasShared, memory, shared)
    ensures forall i | 0 <= i < |chunks| :: chunks[i].sha256 in memory
  {
    forall i | 0 <= i < |chunks| ensures chunks[i].sha256 in memory {
      if i in positions {
        var k :| 0 <= k < |positions| && positions[k] == i;
      } else {
        assert chunks[i].sha256 in wasMemory.Keys;
      }
    }
  }

  lemma SentSizes(env: Env, was: seq<seq<string>>, now: seq<seq<string>>, texts: seq<string>)
    requires Carried(env, was, now, texts, env.batchSize)
    ensures was <= now
    ensures forall i | |was| <= i < |now| :: 1 <= |now[i]| <= if env.multimodal then 20 else env.batchSize
  {}

  lemma AtMostFive(order: seq<nat>, positions: seq<nat>, failures: nat, batch: nat)
    requires RequestedUpTo(order, positions, failures, batch)
    ensures forall p :: multiset(order)[p] <= 5
  {
    var from: nat, to: nat :| from <= to <= |positions| && to <= from + batch && Reaches(order, positions, from, to);
  }

  class TrackAIndexer {
    const env: Env
    const client: DashScopeClient
    var memoryCache: Cache
    var cache: Option<Cache>

    constructor (env: Env, client: DashScopeClient, cache: Option<Cache>)
      requires client.env == env
      ensures this.env == env && this.client == client && memoryCache == map[] && this.cache == cache
    {
      this.env := env;
      this.client := client;
      this.cache := cache;
      memoryCache := map[];
    }

    ghost predicate Valid()
      reads this
    {
      env.Valid() && client.env == env && Agrees(env, memoryCache, cache)
    }

    /** A hit in the shared cache is copied into the indexer's own. */
    method CacheGet(sha: string) returns (vector: Option<Tables.Vector>)
      modifies this
      ensures cache == old(cache)
      ensures vector == Lookup(old(memoryCache), cache, sha)
      ensures vector == if sha in old(memoryCache) then Some(old(memoryCache)[sha])
                        else if cache.Some? && sha in cache.value then Some(cache.value[sha]) else None
      ensures memoryCache == if vector.Some? then old(memoryCache)[sha := vector.value] else old(memoryCache)
      ensures SameLookups(memoryCache, old(memoryCache), cache)
    {
      if sha in memoryCache {
        return Some(memoryCache[sha]);
      }
      if cache.None? || sha !in cache.value {
        return None;
      }
      vector := Some(cache.value[sha]);
      memoryCache := memoryCache[sha := cache.value[sha]];
    }

    method CacheSet(sha: string, vector: Tables.Vector)
      modifies this
      ensures memoryCache == old(memoryCache)[sha := vector]
      ensures cache == if old(cache).Some? then Some(old(cache).value[sha := vector]) else None
    {
      memoryCache := memoryCache[sha := vector];
      if cache.Some? {
        cache := Some(cache.value[sha := vector]);
      }
    }

    /** The first loop: what the caches have, and which positions they lack. */
    method Scan(chunks: seq<Chunker.Chunk>)
        returns (vectors: seq<Option<Tables.Vector>>, pendingPositions: seq<nat>, pendingTexts: seq<string>)
      requires Valid() && Hashed(env, chunks)
      modifies this
      ensures Valid() && cache == old(cache)
      ensures pendingPositions == Pending(chunks, old(memoryCache), cache)
      ensures forall i | 0 <= i < |pendingPositions| :: pendingPositions[i] < |chunks|
      ensures pendingTexts == TextsAt(chunks, pendingPositions)
      ensures Filled(env, chunks, vectors, pendingPositions)
      ensures old(memoryCache).Keys <= memoryCache.Keys
      ensures forall i | 0 <= i < |chunks| && i !in pendingPositions :: chunks[i].sha256 in memoryCache
    {
      hide Lookup, Pending, Agrees, Hashed, Filled, SameLookups;
      ghost var was := memoryCache;
      vectors, pendingPositions, pendingTexts := [], [], [];
      var index := 0;
      NothingPending(was, cache);
      LookupsSame(was, cache);
      assert chunks[..0] == [];
      while index < |chunks|
        invariant 0 <= index <= |chunks| && cache == old(cache)
        invariant SameLookups(memoryCache, was, cache)
        invariant |vectors| == index
        invariant forall i | 0 <= i < index :: vectors[i] == Lookup(was, cache, chunks[i].sha256)
        invariant pendingPositions == Pending(chunks[..index], was, cache)
        invariant forall i | 0 <= i < |pendingPositions| :: pendingPositions[i] < index
        invariant pendingTexts == TextsAt(chunks, pendingPositions)
        invariant was.Keys <= memoryCache.Keys
        invariant forall i | 0 <= i < index && i !in pendingPositions :: chunks[i].sha256 in memoryCache
      {
        PendingSnoc(chunks, index, was, cache);
        ghost var memory := memoryCache;
        var cached := CacheGet(chunks[index].sha256);
        SameLookup(memory, was, cache, chunks[index].sha256);
        SameTrans(memoryCache, memory, was, cache);
        vectors := vectors + [cached];
        if cached.None? {
          pendingPositions := pendingPositions + [index];
          pendingTexts := pendingTexts + [chunks[index].content];
        }
        index := index + 1;
      }
      assert chunks[..index] == chunks;
      AgreesSame(env, memoryCache, was, cache);
      ScanFilled(env, chunks, vectors, was, cache);
    }

    /** Storing one batch of answers. */
    method Store(chunks: seq<Chunker.Chunk>, positions: seq<nat>, embeddings: seq<Tables.Vector>,
                 vectors: seq<Option<Tables.Vector>>, ghost pending: seq<nat>)
        returns (filled: seq<Option<Tables.Vector>>)
      requires Valid() && Hashed(env, chunks)
      requires forall i | 0 <= i < |positions| :: positions[i] < |chunks|
      requires embeddings == EmbedAll(env, TextsAt(chunks, positions))
      requires Filled(env, chunks, vectors, positions + pending)
      modifies this
      ensures Valid()
      ensures Filled(env, chunks, filled, pending)
      ensures Cached(chunks, positions, memoryCache, cache)
      ensures Keeps(old(memoryCache), old(cache), memoryCache, cache)
    {
      filled := vectors;
      var i := 0;
      while i < |positions|
        invariant 0 <= i <= |positions| && Valid()
        invariant Cached(chunks, positions[..i], memoryCache, cache)
        invariant Keeps(old(memoryCache), old(cache), memoryCache, cache)
        invariant Filled(env, chunks, filled, positions[i..] + pending)
      {
        hide Agrees;
        var position := positions[i];
        assert positions[i..] == [position] + positions[i + 1..];
        CacheAfterSet(env, memoryCache, cache, chunks[position].content);
        filled := filled[position := Some(embeddings[i])];
        assert positions[..i + 1] == positions[..i] + [position];
        CacheSet(chunks[position].sha256, embeddings[i]);
        i := i + 1;
      }
      assert positions[i..] + pending == pending && positions[..i] == positions;
    }

    /** The second loop: batch after batch. */
    method EmbedPending(chunks: seq<Chunker.Chunk>, positions: seq<nat>, texts: seq<string>,
                        known: seq<Option<Tables.Vector>>)
        returns (r: Result<seq<Option<Tables.Vector>>, string>, ghost order: seq<nat>)
      requires Valid() && Hashed(env, chunks) && Text.Ascending(positions)
      requires forall i | 0 <= i < |positions| :: positions[i] < |chunks|
      requires texts == TextsAt(chunks, positions) && Filled(env, chunks, known, positions)
      modifies this, client
      ensures Valid() && client.failures >= old(client.failures)
      ensures r.Ok? ==> Filled(env, chunks, r.value, [])
      ensures r.Ok? ==> Cached(chunks, positions, memoryCache, cache)
      ensures Keeps(old(memoryCache), old(cache), memoryCache, cache)
      ensures forall i | 0 <= i < |order| :: order[i] < |chunks|
      ensures Carried(env, old(client.sent), client.sent, TextsAt(chunks, order), env.batchSize)
      ensures RequestedUpTo(order, positions, client.failures - old(client.failures), env.batchSize)
      ensures r.Ok? ==> Requested(order, positions, client.failures - old(client.failures))
      ensures Call(order, OutcomeOf(r), client.script) == CallCourse(env, old(client.script), positions)
    {
      hide Lookup, Agrees, Carried, EmbedAll, Filled, Hashed, Flatten, Tried, Requested, RequestedUpTo, Text.Ascending,
          Attempts, CallGoesOn, CallCourse, BatchCourse, Cached, Keeps, TextsAt;
      KeepsAll(chunks, memoryCache, cache);
      var vectors := known;
      var offset: nat := 0;
      order := [];
      CarriedNothing(env, client.sent, env.batchSize);
      NothingRequested();
      CallStart(env, client.script, positions);
      NoTexts(chunks);
      assert positions[0..] == positions && positions[..0] == [];
      while offset < |texts|
        invariant offset <= |texts| && Valid() && client.failures >= old(client.failures)
        invariant Filled(env, chunks, vectors, positions[offset..])
        invariant forall i | 0 <= i < |order| :: order[i] < |chunks|
        invariant Carried(env, old(client.sent), client.sent, TextsAt(chunks, order), env.batchSize)
        invariant Requested(order, positions[..offset], client.failures - old(client.failures))
        invariant CallGoesOn(env, old(client.script), client.script, positions, offset, order)
        invariant Cached(chunks, positions[..offset], memoryCache, cache)
        invariant Keeps(old(memoryCache), old(cache), memoryCache, cache)
      {
        ghost var memory, shared := memoryCache, cache;
        var end := if offset + env.batchSize <= |texts| then offset + env.batchSize else |texts|;
        var batch, batchPositions := texts[offset..end], positions[offset..end];
        TextsSlice(chunks, positions, offset, end);
        ghost var sent, failures, earlier := client.sent, client.failures, order;
        CallNext(env, old(client.script), client.script, positions, offset, end, order);
        ghost var tries: seq<nat>;
        var embeddings;
        embeddings, tries := client.EmbedBatch(batch);
        TextsTried(chunks, batchPositions, tries);
        order := earlier + Tried<nat>(batchPositions, tries);
        BatchCarried(env, chunks, earlier, Tried<nat>(batchPositions, tries), old(client.sent), sent, client.sent,
                     end - offset);
        if embeddings.Err? {
          RequestedFailing(earlier, positions, offset, end, failures - old(client.failures), tries,
                           client.failures - failures, env.batchSize);
          return Err(embeddings.error), order;
        }
        BatchDone(earlier, positions, offset, end, failures - old(client.failures), tries, client.failures - failures);
        vectors := Store(chunks, batchPositions, embeddings.value, vectors, positions[end..]);
        CachedMore(chunks, positions[..offset], batchPositions, old(memoryCache), old(cache), memory, shared,
                   memoryCache, cache);
        offset := end;
      }
      assert positions[offset..] == [] && positions[..offset] == positions;
      CallDone(env, old(client.script), client.script, positions, order);
      AllRequested(order, positions, client.failures - old(client.failures), env.batchSize);
      return Ok(vectors), order;
    }

    /** `embed_chunks`: the embedding of every chunk.  `order` lists the positions requested, in
        requests of bounded size: none but the uncached ones, each at least once and at most
        five times, and exactly once, in order, precisely when no request failed on the way. */
    method EmbedChunks(chunks: seq<Chunker.Chunk>)
        returns (r: Result<seq<Tables.Vector>, string>, ghost order: seq<nat>)
      requires Valid() && Hashed(env, chunks)
      modifies this, client
      ensures Valid() && client.failures >= old(client.failures)
      ensures r.Ok? ==> |r.value| == |chunks| && forall i | 0 <= i < |chunks| :: r.value[i] == env.embed(chunks[i].content)
      ensures r.Ok? ==> forall i | 0 <= i < |chunks| :: chunks[i].sha256 in memoryCache
      ensures r.Ok? ==> Cached(chunks, Pending(chunks, old(memoryCache), old(cache)), memoryCache, cache)
      ensures forall i | 0 <= i < |order| :: order[i] < |chunks|
      ensures Carried(env, old(client.sent), client.sent, TextsAt(chunks, order), env.batchSize)
      ensures old(client.sent) <= client.sent
      ensures forall i | |old(client.sent)| <= i < |client.sent| ::
                1 <= |client.sent[i]| <= if env.multimodal then 20 else env.batchSize
      ensures forall p :: multiset(order)[p] <= 5
      ensures var positions := Pending(chunks, old(memoryCache), old(cache));
              && Call(order, OutcomeOf(r), client.script) == CallCourse(env, old(client.script), positions)
              && (r.Ok? <==> Succeeds(env, old(client.script), |positions|))
      ensures var positions := Pending(chunks, old(memoryCache), old(cache));
              var failures := client.failures - old(client.failures);
              && RequestedUpTo(order, positions, failures, env.batchSize)
              && (r.Ok? ==> Requested(order, positions, failures))
    {
      hide Lookup, Pending, Agrees, Carried, EmbedAll, Filled, Hashed, Flatten, Requested, RequestedUpTo, CallCourse,
          Succeeds, Cached, Keeps;
      PendingOnly(chunks, memoryCache, cache);
      var vectors, positions, texts := Scan(chunks);
      var filled;
      CallSucceeds(env, client.script, positions);
      ghost var memory, shared := memoryCache, cache;
      filled, order := EmbedPending(chunks, positions, texts, vectors);
      SentSizes(env, old(client.sent), client.sent, TextsAt(chunks, order));
      AtMostFive(order, positions, client.failures - old(client.failures), env.batchSize);
      if filled.Err? {
        return Err(filled.error), order;
      }
      AllFilled(env, chunks, filled.value);
      AllCached(chunks, positions, memory, shared, memoryCache, cache);
      r := Ok(seq(|filled.value|, i requires 0 <= i < |filled.value| =>
                    if filled.value[i].Some? then filled.value[i].value else []));
    }
  }

  /** A call on chunks all of whose hashes the indexer has seen requests nothing. */
  lemma {:induction false} NothingPendingAgain(chunks: seq<Chunker.Chunk>, memory: Cache, shared: Option<Cache>)
    requires forall i | 0 <= i < |chunks| :: chunks[i].sha256 in memory
    ensures Pending(chunks, memory, shared) == []
  {
    if chunks != [] {
      NothingPendingAgain(chunks[..|chunks| - 1], memory, shared);
    }
  }

  /** Each uncached position is requested exactly once precisely when no request failed. */
  lemma OnceIffNoFailure(order: seq<nat>, positions: seq<nat>, failures: nat)
    requires Requested(order, positions, failures) && Text.Ascending(positions)
    ensures (forall p | p in positions :: multiset(order)[p] == 1) <==> failures == 0
  {
    if failures == 0 {
      forall p | p in positions
        ensures multiset(order)[p] == 1
      {
        CountAscending(positions, p);
      }
    } else {
      var p :| multiset(order)[p] >= 2;
      assert p in positions;
    }
  }

  lemma BeforeAscends(positions: seq<nat>, offset: nat, end: nat)
    requires Text.Ascending(positions) && offset <= end <= |positions|
    ensures Text.Ascending(positions[..offset] + positions[offset..end])
  {
    assert positions[..offset] + positions[offset..end] == positions[..end];
  }

  lemma AllRequested(order: seq<nat>, positions: seq<nat>, failures: nat, batch: nat)
    requires Requested(order, positions, failures)
    ensures RequestedUpTo(order, positions, failures, batch)
  {
    assert positions[..|positions|] == positions;
    assert Reaches(order, positions, |positions|, |positions|);
  }

  lemma BatchCarried(env: Env, chunks: seq<Chunker.Chunk>, order: seq<nat>, more: seq<nat>,
                     a: seq<seq<string>>, b: seq<seq<string>>, c: seq<seq<string>>, n: nat)
    requires (forall i | 0 <= i < |order| :: order[i] < |chunks|) && forall i | 0 <= i < |more| :: more[i] < |chunks|
    requires n <= env.batchSize
    requires Carried(env, a, b, TextsAt(chunks, order), env.batchSize) && Carried(env, b, c, TextsAt(chunks, more), n)
    ensures forall i | 0 <= i < |order + more| :: (order + more)[i] < |chunks|
    ensures Carried(env, a, c, TextsAt(chunks, order + more), env.batchSize)
  {
    CarriedLarger(env, b, c, TextsAt(chunks, more), n, env.batchSize);
    CarriedMore(env, a, b, c, TextsAt(chunks, order), TextsAt(chunks, more), env.batchSize);
    assert TextsAt(chunks, order + more) == TextsAt(chunks, order) + TextsAt(chunks, more);
    hide Carried;
  }

  lemma AllFilled(env: Env, chunks: seq<Chunker.Chunk>, vectors: seq<Option<Tables.Vector>>)
    requires Filled(env, chunks, vectors, [])
    ensures |vectors| == |chunks|
    ensures forall i | 0 <= i < |vectors| :: vectors[i] == Some(env.embed(chunks[i].content))
  {}

  // ---------- for which answers ----------

  ghost predicate AllAnswered(script: seq<Answer>, k: nat) {
    forall i: nat | i < k :: AnswerAt(script, i).Answered?
  }

  lemma {:induction false} TryAnswered(script: seq<Answer>, k: nat)
    ensures var t := TryOf(script, k);
            if AllAnswered(script, k) then t == Try(k, Answered)
            else 0 < t.requests <= k && !t.outcome.Answered? && AnswerAt(script, t.requests - 1) == t.outcome
    decreases k
  {
    if k > 0 {
      var rest := After(script, 1);
      TryAnswered(rest, k - 1);
      forall i: nat
        ensures AnswerAt(rest, i) == AnswerAt(script, 1 + i)
      {
        AfterAfter(script, 1, i);
      }
      if AllAnswered(script, k) {
        assert forall i: nat | i < k - 1 :: AnswerAt(rest, i) == AnswerAt(script, 1 + i);
        assert AllAnswered(rest, k - 1);
      } else if AnswerAt(script, 0).Answered? {
        var i: nat :| i < k && !AnswerAt(script, i).Answered?;
        assert AnswerAt(rest, i - 1) == AnswerAt(script, 1 + (i - 1));
        assert !AllAnswered(rest, k - 1);
      }
    }
  }

  /** A batch all of whose requests are answered goes through at once; one that goes through in
      spite of a failed request is sent again. */
  lemma BatchAnswered(env: Env, script: seq<Answer>, n: nat, left: nat)
    requires n > 0 && left > 0
    ensures var k, c := RequestsFor(env, n), BatchCourse(env, script, n, left);
            if AllAnswered(script, k) then c == Course([n], Answered, After(script, k))
            else c.outcome.Answered? ==> |c.tries| >= 2 && exists i: nat :: i < k && AnswerAt(script, i).Failed?
  {
    hide TryOf, After, AnswerAt, AllAnswered;
    var k := RequestsFor(env, n);
    TryAnswered(script, k);
    CourseStep(env, script, n, left);
    if !AllAnswered(script, k) && TryOf(script, k).outcome.Failed? && left > 1 {
      CourseTries(env, After(script, TryOf(script, k).requests), n, left - 1);
    }
    hide BatchCourse;
  }

  lemma {:induction false} CourseTries(env: Env, script: seq<Answer>, n: nat, left: nat)
    requires n > 0 && left > 0
    ensures var c := BatchCourse(env, script, n, left);
            1 <= |c.tries| <= left && forall i | 0 <= i < |c.tries| :: 1 <= c.tries[i] <= n
    decreases left
  {
    hide TryOf, After;
    if left > 1 {
      CourseTries(env, After(script, TryOf(script, RequestsFor(env, n)).requests), n, left - 1);
    }
  }

  /** The requests of a call none of which is refused or fails. */
  function TotalRequests(env: Env, n: nat): nat
    requires env.batchSize > 0
    decreases n
  {
    if n == 0 then 0 else RequestsFor(env, BatchOf(env, n)) + TotalRequests(env, n - BatchOf(env, n))
  }

  /** q whole batches and r positions more: a batch takes one request, or one for every 20 of its
      texts. */
  lemma {:induction false} TotalRequestsIs(env: Env, n: nat, q: nat, r: nat)
    requires env.batchSize > 0 && r < env.batchSize && n == q * env.batchSize + r
    ensures TotalRequests(env, n) ==
            if env.multimodal then q * ((env.batchSize + 19) / 20) + (r + 19) / 20 else q + if r > 0 then 1 else 0
  {
    var k := RequestsFor(env, env.batchSize);
    RequestsForIs(env, env.batchSize);
    RequestsForIs(env, r);
    hide RequestsFor;
    if q > 0 {
      OneBatchLess(n, q, env.batchSize, r);
      TotalRequestsIs(env, n - env.batchSize, q - 1, r);
      OneBatchLess(q * k, q, k, 0);
    } else {
      assert n == r;
    }
  }

  lemma RequestsForIs(env: Env, n: nat)
    ensures RequestsFor(env, n) == if env.multimodal then (n + 19) / 20 else 1
  {}

  lemma OneBatchLess(n: nat, q: nat, b: nat, r: nat)
    requires q > 0 && n == q * b + r
    ensures n >= b && n - b == (q - 1) * b + r
  {
    assert q * b == (q - 1) * b + b;
  }

  lemma AnsweredSplit(script: seq<Answer>, a: nat, b: nat)
    ensures AllAnswered(script, a + b) <==> AllAnswered(script, a) && AllAnswered(After(script, a), b)
    ensures (exists i: nat :: i < b && AnswerAt(After(script, a), i).Failed?) ==>
              exists i: nat :: i < a + b && AnswerAt(script, i).Failed?
    ensures (exists i: nat :: i < a && AnswerAt(script, i).Failed?) ==>
              exists i: nat :: i < a + b && AnswerAt(script, i).Failed?
  {
    forall i: nat
      ensures AnswerAt(After(script, a), i) == AnswerAt(script, a + i)
    {
      AfterAfter(script, a, i);
    }
    hide AnswerAt, After;
    if AllAnswered(script, a) && AllAnswered(After(script, a), b) {
      forall i: nat | i < a + b
        ensures AnswerAt(script, i).Answered?
      {
        if a <= i {
          assert AnswerAt(After(script, a), i - a) == AnswerAt(script, a + (i - a));
        }
      }
    }
    if i: nat :| i < b && AnswerAt(After(script, a), i).Failed? {
      assert AnswerAt(script, a + i).Failed?;
    }
  }

  /** With the first answers all given the call requests every position once and in order; and a
      call that succeeds without that has met a failed request and sent a position again. */
  lemma {:induction false} CallAnswered(env: Env, script: seq<Answer>, positions: seq<nat>)
    requires env.batchSize > 0
    ensures var total, c := TotalRequests(env, |positions|), CallCourse(env, script, positions);
            if AllAnswered(script, total) then c == Call(positions, Answered, After(script, total))
            else c.outcome.Answered? ==>
                   && (exists i: nat :: i < total && AnswerAt(script, i).Failed?)
                   && exists p :: multiset(c.order)[p] >= 2
    decreases |positions|
  {
    hide CallCourse, BatchCourse, AllAnswered, AnswerAt, After, RequestsFor, Tried;
    CallStep(env, script, positions);
    if positions == [] {
      NothingAsked(script);
    } else {
      var n := BatchOf(env, |positions|);
      var k := RequestsFor(env, n);
      var first, rest := positions[..n], positions[n..];
      var c := BatchCourse(env, script, n, MAX_TRIES);
      BatchAnswered(env, script, n, MAX_TRIES);
      CourseTries(env, script, n, MAX_TRIES);
      AnsweredSplit(script, k, TotalRequests(env, |rest|));
      AfterAfter(script, k, TotalRequests(env, |rest|));
      CallAnswered(env, c.rest, rest);
      if AllAnswered(script, k) {
        OneTry(first, c.tries);
        assert first + rest == positions;
      } else if c.outcome.Answered? {
        TriedAgain(first, c.tries);
        assert multiset(Tried<nat>(first, c.tries) + CallCourse(env, c.rest, rest).order)[first[0]] >= 2;
      }
      if c.outcome.Answered? {
        MoreTwice(Tried<nat>(first, c.tries), CallCourse(env, c.rest, rest).order);
      }
    }
  }

  lemma MoreTwice(a: seq<nat>, b: seq<nat>)
    ensures (exists p :: multiset(b)[p] >= 2) ==> exists p :: multiset(a + b)[p] >= 2
  {
    if p :| multiset(b)[p] >= 2 {
      assert multiset(a + b)[p] >= 2;
    }
  }

  lemma NothingAsked(script: seq<Answer>)
    ensures AllAnswered(script, 0) && After(script, 0) == script
  {}

  /** A call that succeeds requests each of its positions exactly once if and only if none of the
      first answers, as many as it needs requests, is a failure. */
  lemma OnceIffAnswered(env: Env, script: seq<Answer>, positions: seq<nat>)
    requires env.batchSize > 0 && Text.Ascending(positions) && Succeeds(env, script, |positions|)
    ensures var total, order := TotalRequests(env, |positions|), CallCourse(env, script, positions).order;
            (forall p :: multiset(order)[p] == if p in positions then 1 else 0) <==>
            forall i: nat | i < total :: !AnswerAt(script, i).Failed?
  {
    hide CallCourse, Succeeds, AnswerAt, After;
    CallSucceeds(env, script, positions);
    CallAnswered(env, script, positions);
    var total, order := TotalRequests(env, |positions|), CallCourse(env, script, positions).order;
    if AllAnswered(script, total) {
      forall p
        ensures multiset(order)[p] == if p in positions then 1 else 0
      {
        CountAscending(positions, p);
      }
    }
  }

  // ---------- few failures do no harm ----------

  function FailuresIn(script: seq<Answer>): nat {
    if script == [] then 0 else (if script[0].Failed? then 1 else 0) + FailuresIn(script[1..])
  }

  lemma {:induction false} FailuresAre(script: seq<Answer>, at: set<nat>)
    requires forall i: nat :: i in at <==> i < |script| && script[i].Failed?
    ensures FailuresIn(script) == |at|
  {
    if script == [] {
      assert forall i: nat :: i !in at;
    } else {
      var rest := script[1..];
      var later := set i: nat | i < |rest| && rest[i].Failed?;
      FailuresAre(rest, later);
      ShiftedSize(later, at - {0});
    }
  }

  lemma {:induction false} ShiftedSize(a: set<nat>, b: set<nat>)
    requires forall i: nat {:trigger i in b} :: i in b <==> i > 0 && i - 1 in a
    ensures |a| == |b|
  {
    if a == {} {
      assert forall i: nat :: i !in b;
    } else {
      var x :| x in a;
      assert x + 1 in b;
      ShiftedSize(a - {x}, b - {x + 1});
    }
  }

  predicate NoneRejected(script: seq<Answer>) {
    forall i | 0 <= i < |script| :: !script[i].Rejected?
  }

  /** A try uses up one failure if it fails, and none otherwise. */
  lemma {:induction false} TryFailures(script: seq<Answer>, k: nat)
    ensures var t := TryOf(script, k);
            && FailuresIn(After(script, t.requests)) + (if t.outcome.Failed? then 1 else 0) <= FailuresIn(script)
            && (NoneRejected(script) ==> !t.outcome.Rejected? && NoneRejected(After(script, t.requests)))
    decreases k
  {
    if k == 0 {
      assert After(script, 0) == script;
    } else {
      var rest := After(script, 1);
      TryFailures(rest, k - 1);
      AfterAfter(script, 1, TryOf(rest, k - 1).requests);
    }
  }

  lemma {:induction false} BatchFailures(env: Env, script: seq<Answer>, n: nat, left: nat)
    requires left > 0 && NoneRejected(script) && FailuresIn(script) < left
    ensures var c := BatchCourse(env, script, n, left);
            c.outcome.Answered? && FailuresIn(c.rest) <= FailuresIn(script) && NoneRejected(c.rest)
    decreases left
  {
    hide TryOf, After, FailuresIn, NoneRejected;
    TryFailures(script, RequestsFor(env, n));
    var t := TryOf(script, RequestsFor(env, n));
    if t.outcome.Failed? && left > 1 {
      BatchFailures(env, After(script, t.requests), n, left - 1);
    }
  }

  /** Up to four failures over the whole call, and no rejection, are made good. */
  lemma {:induction false} FewFailuresSucceed(env: Env, script: seq<Answer>, n: nat)
    requires env.batchSize > 0 && NoneRejected(script) && FailuresIn(script) <= 4
    ensures Succeeds(env, script, n)
    decreases n
  {
    hide BatchCourse, FailuresIn, NoneRejected;
    if n > 0 {
      BatchFailures(env, script, BatchOf(env, n), MAX_TRIES);
      FewFailuresSucceed(env, BatchCourse(env, script, BatchOf(env, n), MAX_TRIES).rest, n - BatchOf(env, n));
    }
  }

  /** What is left of the answers before try i of a batch. */
  function BeforeTry(script: seq<Answer>, k: nat, i: nat): seq<Answer>
    decreases i
  {
    if i == 0 then script else BeforeTry(After(script, TryOf(script, k).requests), k, i - 1)
  }

  /** Try m is the first that does not fail, and it is answered to the end. */
  ghost predicate AnsweredAtTry(script: seq<Answer>, k: nat, m: nat) {
    && (forall i: nat | i < m :: TryOf(BeforeTry(script, k, i), k).outcome.Failed?)
    && TryOf(BeforeTry(script, k, m), k).outcome.Answered?
  }

  /** A batch succeeds exactly if one of its tries is answered to the end and those before it
      failed, none having been rejected. */
  lemma {:induction false} BatchSucceeds(env: Env, script: seq<Answer>, n: nat, left: nat)
    requires left > 0
    ensures BatchCourse(env, script, n, left).outcome.Answered? <==>
            exists m: nat :: m < left && AnsweredAtTry(script, RequestsFor(env, n), m)
    decreases left
  {
    hide TryOf, After, AnsweredAtTry, RequestsFor;
    var k := RequestsFor(env, n);
    var rest := After(script, TryOf(script, k).requests);
    forall m: nat
      ensures AnsweredAtTry(script, k, m) <==>
              if m == 0 then TryOf(script, k).outcome.Answered?
              else TryOf(script, k).outcome.Failed? && AnsweredAtTry(rest, k, m - 1)
    {
      TryShift(script, k, m);
    }
    if left > 1 {
      BatchSucceeds(env, rest, n, left - 1);
      if m: nat :| m < left - 1 && AnsweredAtTry(rest, k, m) {
        TryShift(script, k, m + 1);
      }
    }
    assert AnsweredAtTry(script, k, 0) <==> TryOf(script, k).outcome.Answered?;
  }

  lemma BeforeShift(script: seq<Answer>, k: nat, i: nat)
    ensures BeforeTry(script, k, i) ==
            if i == 0 then script else BeforeTry(After(script, TryOf(script, k).requests), k, i - 1)
  {
    hide TryOf, After;
  }

  lemma TryShift(script: seq<Answer>, k: nat, m: nat)
    ensures AnsweredAtTry(script, k, m) <==>
            if m == 0 then TryOf(script, k).outcome.Answered?
            else TryOf(script, k).outcome.Failed? && AnsweredAtTry(After(script, TryOf(script, k).requests), k, m - 1)
  {
    hide TryOf, After, BeforeTry;
    BeforeShift(script, k, 0);
    if m > 0 {
      TryShiftOn(script, After(script, TryOf(script, k).requests), k, m);
      TryShiftBack(script, After(script, TryOf(script, k).requests), k, m);
    }
    hide AnsweredAtTry;
    if m == 0 {
      TryAtOnce(script, k);
    }
  }

  lemma TryAtOnce(script: seq<Answer>, k: nat)
    ensures AnsweredAtTry(script, k, 0) <==> TryOf(script, k).outcome.Answered?
  {
    hide TryOf, After;
  }

  lemma TryShiftOn(script: seq<Answer>, rest: seq<Answer>, k: nat, m: nat)
    requires m > 0 && rest == After(script, TryOf(script, k).requests)
    ensures TryOf(script, k).outcome.Failed? && AnsweredAtTry(rest, k, m - 1) ==> AnsweredAtTry(script, k, m)
  {
    hide TryOf, After, BeforeTry;
    if TryOf(script, k).outcome.Failed? && AnsweredAtTry(rest, k, m - 1) {
      BeforeShift(script, k, m);
      forall i: nat | i < m
        ensures TryOf(BeforeTry(script, k, i), k).outcome.Failed?
      {
        BeforeShift(script, k, i);
      }
    }
  }

  lemma TryShiftBack(script: seq<Answer>, rest: seq<Answer>, k: nat, m: nat)
    requires m > 0 && rest == After(script, TryOf(script, k).requests)
    ensures AnsweredAtTry(script, k, m) ==> TryOf(script, k).outcome.Failed? && AnsweredAtTry(rest, k, m - 1)
  {
    hide TryOf, After, BeforeTry;
    if AnsweredAtTry(script, k, m) {
      BeforeShift(script, k, m);
      BeforeShift(script, k, 0);
      assert TryOf(BeforeTry(script, k, 0), k).outcome.Failed?;
      forall i: nat | i < m - 1
        ensures TryOf(BeforeTry(rest, k, i), k).outcome.Failed?
      {
        BeforeShift(script, k, i + 1);
      }
    }
  }

  /** Two requests, of which the second fails once. */
  lemma SecondFails(env: Env, script: seq<Answer>, n: nat)
    requires env.multimodal && script == [Answered, Failed] && n == 21
    ensures BatchCourse(env, script, n, MAX_TRIES) == Course([n, n], Answered, [])
  {
    hide BatchCourse, TryOf, After, RequestsFor, Reach;
    var k, rest := RequestsFor(env, n), After(script, 2);
    TwoRequests(env, n);
    FirstTryFails(script, k);
    TryAnswered(rest, k);
    NothingLeft(rest, k);
    CourseStep(env, script, n, MAX_TRIES);
    CourseStep(env, rest, n, MAX_TRIES - 1);
    assert [n] + [n] == [n, n];
  }

  lemma TwoRequests(env: Env, n: nat)
    requires env.multimodal && n == 21
    ensures RequestsFor(env, n) == 2 && Reach(env, n, 2) == n
  {}

  lemma NothingLeft(script: seq<Answer>, k: nat)
    requires script == []
    ensures AllAnswered(script, k) && After(script, k) == []
  {}

  lemma FirstTryFails(script: seq<Answer>, k: nat)
    requires script == [Answered, Failed] && k == 2
    ensures TryOf(script, k) == Try(2, Failed) && After(script, 2) == []
  {
    var rest := After(script, 1);
    assert rest == [Failed] && AnswerAt(rest, 0) == Failed && AnswerAt(script, 0) == Answered;
    assert TryOf(rest, k - 1) == Try(1, Failed);
  }

  /** An input on which every position is sent twice: 21 uncached chunks in one batch. */
  lemma SentTwice(env: Env, positions: seq<nat>)
    requires env.multimodal && env.batchSize == 25 && |positions| == 21
    ensures CallCourse(env, [Answered, Failed], positions) == Call(positions + positions, Answered, [])
  {
    hide CallCourse, BatchCourse, Tried;
    var script: seq<Answer>, rest: seq<Answer> := [Answered, Failed], [];
    SecondFails(env, script, |positions|);
    CallStep(env, script, positions);
    CallStep(env, rest, positions[21..]);
    assert positions[..21] == positions && positions[21..] == [];
    TriedTwice(positions, BatchCourse(env, script, |positions|, MAX_TRIES).tries);
    assert positions + positions + [] == positions + positions;
  }

  lemma TriedTwice(positions: seq<nat>, tries: seq<nat>)
    requires |tries| == 2 && tries[0] == tries[1] == |positions|
    ensures Tried<nat>(positions, tries) == positions + positions
  {
    hide Tried;
    var one, n := tries[..1], tries[1];
    assert tries == one + [n] && positions[..n] == positions;
    OneTry(positions, one);
    TriedSnoc<nat>(positions, one, n);
  }
}
