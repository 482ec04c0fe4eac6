/** The guarantees of one job over every run of the whole system. */
module CrashRefinement {
  import opened Wrappers
  import opened Tables
  import opened Deletion
  import opened Ingest
  import opened IngestSlice
  import opened IngestRefinement

  ghost predicate Healthy(cfg: Config, s: Sys, j: Id, d: Id, doc0: Document, outs: seq<Output>) {
    && j in s.workers && s.workers[j].doc == d
    && Good(cfg, SliceOf(s.db, j, d), s.workers[j].pc, j, d, doc0, outs)
  }

  /** The event is a move of another worker of the document. */
  ghost predicate SiblingMoves(s: Sys, e: Event, j: Id, d: Id) {
    e.Work? && e.job != j && e.job in s.workers && s.workers[e.job].doc == d
  }

  // ---------- one event ----------

  /** What must hold after an event that leaves the document in place. */
  ghost predicate Onward(cfg: Config, next: Sys, j: Id, d: Id, doc0: Document, outs: seq<Output>, longer: seq<Output>) {
    outs <= longer && (d in next.db.docs ==> Healthy(cfg, next, j, d, doc0, longer))
  }

  /** The tables keep up with the receipts. */
  ghost predicate TablesOnward(cfg: Config, s: Sys, next: Sys, j: Id, d: Id, doc0: Document, outs: seq<Output>,
                               longer: seq<Output>) {
    d in next.db.docs && Settled(cfg, SliceOf(s.db, j, d), d, doc0, outs) ==>
      Settled(cfg, SliceOf(next.db, j, d), d, doc0, longer)
  }

  ghost predicate ReadyOnward(s: Sys, next: Sys, d: Id, outs: seq<Output>, longer: seq<Output>) {
    d in s.db.docs && d in next.db.docs && ReadyEarned(s.db.docs[d], outs) ==> ReadyEarned(next.db.docs[d], longer)
  }

  ghost predicate AllOnward(cfg: Config, s: Sys, next: Sys, j: Id, d: Id, doc0: Document, outs: seq<Output>,
                            longer: seq<Output>) {
    && Onward(cfg, next, j, d, doc0, outs, longer)
    && TablesOnward(cfg, s, next, j, d, doc0, outs, longer)
    && ReadyOnward(s, next, d, outs, longer)
  }

  lemma GoodPlace(cfg: Config, s: Sys, j: Id, d: Id, doc0: Document, outs: seq<Output>)
    requires Healthy(cfg, s, j, d, doc0, outs)
    ensures j in s.db.jobs && d in s.db.docs && s.db.jobs[j].doc == d
    ensures !CancelledOrDeleted(s.db, j, d) && !s.workers[j].pc.Cancelling?
    ensures SameDocument(doc0, s.db.docs[d])
  {
    hide Receipts, Possible;
  }

  lemma HealthyWorker(cfg: Config, s: Sys, j: Id, d: Id, doc0: Document, outs: seq<Output>)
    requires Healthy(cfg, s, j, d, doc0, outs)
    ensures j in s.workers && s.workers[j].doc == d
  {
    hide Good;
  }

  /** The slice changed at most in the document's status and page count. */
  lemma GoodAgain(cfg: Config, was: Slice, now: Slice, pc: Pc, j: Id, d: Id, doc0: Document, outs: seq<Output>)
    requires Good(cfg, was, pc, j, d, doc0, outs)
    requires now.job == was.job && now.receipts == was.receipts
    requires now.doc.Some? && SameDocument(doc0, now.doc.value)
    ensures Good(cfg, now, pc, j, d, doc0, outs)
  {
    hide Receipts, Possible, PcOk;
  }

  /** The job's payloads after an event: its own commits add to them. */
  ghost function Grown(cfg: Config, s: Sys, e: Event, j: Id, outs: seq<Output>): seq<Output> {
    if e.Work? && e.job == j && j in s.workers then
      var d := s.workers[j].doc;
      var tx := Next(cfg, s.db, j, d, s.workers[j].pc, e.choice).tx;
      if Fails(cfg.fk, s.db, j, d, tx) then outs else Extended(tx, outs)
    else outs
  }

  /** The payloads the job has committed over a run. */
  ghost function Committed(cfg: Config, s0: Sys, events: seq<Event>, j: Id): seq<Output> {
    if events == [] then []
    else
      var n := |events| - 1;
      Grown(cfg, Run(cfg, s0, events[..n]), events[n], j, Committed(cfg, s0, events[..n], j))
  }

  lemma OwnWork(cfg: Config, s: Sys, j: Id, choice: Output, d: Id, doc0: Document,
                outs: seq<Output>) returns (longer: seq<Output>)
    requires Healthy(cfg, s, j, d, doc0, outs)
    ensures longer == Grown(cfg, s, Work(j, choice), j, outs)
    ensures AllOnward(cfg, s, WorkStep(cfg, s, j, choice), j, d, doc0, outs, longer)
  {
    hide Good, Settled, SliceOf, Perform, Next, Fails, ReadyEarned;
    var next := Next(cfg, s.db, j, d, s.workers[j].pc, choice);
    if d in s.db.docs && ReadyEarned(s.db.docs[d], outs) {
      OwnReady(cfg, s.db, j, d, s.workers[j].pc, choice, doc0, outs);
    }
    OwnStep(cfg, s.db, j, d, s.workers[j].pc, choice, doc0, outs);
    longer := if Fails(cfg.fk, s.db, j, d, next.tx) then outs else Extended(next.tx, outs);
  }

  /** A worker of the same document purges it or leaves the job's row and receipts intact; the
      tables it may write do not matter before the job has written its own. */
  lemma SiblingWork(cfg: Config, s: Sys, j2: Id, choice: Output, j: Id, d: Id, doc0: Document, outs: seq<Output>)
    requires Healthy(cfg, s, j, d, doc0, outs) && j2 in s.workers && j2 != j && s.workers[j2].doc == d
    ensures Onward(cfg, WorkStep(cfg, s, j2, choice), j, d, doc0, outs, outs)
  {
    var next := Next(cfg, s.db, j2, d, s.workers[j2].pc, choice);
    GoodPlace(cfg, s, j, d, doc0, outs);
    if Fails(cfg.fk, s.db, j2, d, next.tx) {
      hide Good, Settled, SliceOf, Perform, Next, Fails;
    } else if next.tx == PurgeTx {
      hide Good, Settled, SliceOf, Next, Fails, DropJobs, DropReceipts, DropRows, DropParses, DropCitations;
    } else {
      NoDeletingMark(cfg, s.db, j2, d, s.workers[j2].pc, choice);
      SiblingJob(s.db, j, d, j2, next.tx);
      SiblingDoc(s.db, d, j2, next.tx);
      GoodAgain(cfg, SliceOf(s.db, j, d), SliceOf(Perform(s.db, j2, d, next.tx), j, d), s.workers[j].pc, j, d, doc0, outs);
      hide Good, Settled, Perform, Next, Fails, OwnRows, ReceiptsFor;
    }
  }

  lemma NoDeletingMark(cfg: Config, db: Db, j: Id, d: Id, pc: Pc, choice: Output)
    ensures Next(cfg, db, j, d, pc, choice).tx != MarkTx(Deleting)
  {
    hide KeyOf, WriteOf, Runner, ParseRowOf, CancelledOrDeleted;
  }

  /** A worker of another document changes nothing in the view. */
  lemma OtherWork(cfg: Config, s: Sys, j2: Id, choice: Output, j: Id, d: Id, doc0: Document, outs: seq<Output>)
    requires Healthy(cfg, s, j, d, doc0, outs) && j2 in s.workers && j2 != j && s.workers[j2].doc != d
    ensures AllOnward(cfg, s, WorkStep(cfg, s, j2, choice), j, d, doc0, outs, outs)
  {
    var d2 := s.workers[j2].doc;
    var next := Next(cfg, s.db, j2, d2, s.workers[j2].pc, choice);
    GoodPlace(cfg, s, j, d, doc0, outs);
    OtherTx(s.db, j, d, j2, d2, next.tx);
    SameSliceSameDoc(s.db, Perform(s.db, j2, d2, next.tx), j, d);
    hide Good, Settled, SliceOf, Perform, Next, Fails, ReadyEarned;
  }

  lemma SameSliceSameDoc(was: Db, now: Db, j: Id, d: Id)
    ensures SliceOf(was, j, d) == SliceOf(now, j, d) && d in was.docs && d in now.docs ==> was.docs[d] == now.docs[d]
  {
    hide OwnRows, ReceiptsFor;
  }

  /** Events that only move a worker. */
  lemma WorkerMoved(cfg: Config, s: Sys, j2: Id, pc: Pc, j: Id, d: Id, doc0: Document, outs: seq<Output>)
    requires Healthy(cfg, s, j, d, doc0, outs) && j2 in s.workers
    requires j2 == j ==> !pc.Live? && !pc.Cancelling?
    ensures AllOnward(cfg, s, At(s, j2, pc), j, d, doc0, outs, outs)
  {
    if j2 == j {
      Interrupted(cfg, SliceOf(s.db, j, d), s.workers[j].pc, pc, j, d, doc0, outs);
    }
    hide Good, Settled, SliceOf;
  }

  lemma DocumentDeleted(cfg: Config, s: Sys, d2: Id, j: Id, d: Id, doc0: Document, outs: seq<Output>)
    requires Healthy(cfg, s, j, d, doc0, outs)
    ensures AllOnward(cfg, s, s.(db := Purge(s.db, {d2}, true)), j, d, doc0, outs, outs)
  {
    GoodPlace(cfg, s, j, d, doc0, outs);
    if d2 != d {
      OtherPurged(s.db, j, d, {d2}, true);
    }
    hide Good, Settled, SliceOf, DropJobs, DropReceipts, DropRows, DropParses, DropCitations, JobsOf;
  }

  lemma KbDeleted(cfg: Config, s: Sys, kb: Id, j: Id, d: Id, doc0: Document, outs: seq<Output>)
    requires Healthy(cfg, s, j, d, doc0, outs)
    ensures AllOnward(cfg, s, s.(db := PurgeKb(s.db, kb)), j, d, doc0, outs, outs)
  {
    GoodPlace(cfg, s, j, d, doc0, outs);
    if s.db.docs[d].kb != kb {
      var was, now := SliceOf(s.db, j, d), SliceOf(PurgeKb(s.db, kb), j, d);
      KbPurged(s.db, j, d, kb);
      GoodAgain(cfg, was, now, s.workers[j].pc, j, d, doc0, outs);
      if Settled(cfg, was, d, doc0, outs) {
        KbPurgedSettled(cfg, was, kb, d, doc0, outs);
      }
      hide Good, Settled, SliceOf, PurgeKb, OwnRows;
    } else {
      assert d !in PurgeKb(s.db, kb).docs;
      hide Good, Settled, SliceOf, PurgeKb;
    }
  }

  lemma KbPurgedSettled(cfg: Config, sl: Slice, kb: Id, d: Id, doc0: Document, outs: seq<Output>)
    requires Settled(cfg, sl, d, doc0, outs) && doc0.kb != kb
    ensures Settled(cfg, sl.(chunks := DropKbChunks(sl.chunks, kb)), d, doc0, outs)
  {
    hide PagesSettled, AssetsSettled, ResultSettled, ChunksOf, VectorsOf;
    if 5 < |outs| {
      assert DropKbChunks(sl.chunks, kb) == sl.chunks;
    }
  }

  /** A retry marks the document pending, and adds a job: if it is for this document, a sibling. */
  lemma Retried(cfg: Config, s: Sys, d2: Id, j2: Id, j: Id, d: Id, doc0: Document, outs: seq<Output>)
    requires Healthy(cfg, s, j, d, doc0, outs) && Enabled(s, Retry(d2, j2))
    ensures AllOnward(cfg, s, Apply(cfg, s, Retry(d2, j2)), j, d, doc0, outs, outs)
  {
    GoodPlace(cfg, s, j, d, doc0, outs);
    var next := Apply(cfg, s, Retry(d2, j2));
    var was, now := SliceOf(s.db, j, d), SliceOf(next.db, j, d);
    hide Good, ChunksSettled, PagesSettled, AssetsSettled, OwnRows, ReceiptsFor;
    GoodAgain(cfg, was, now, s.workers[j].pc, j, d, doc0, outs);
    assert now == was.(doc := now.doc) && now.doc.value.pageCount == was.doc.value.pageCount;
    hide ParseRowOf, ParsedOf;
  }

  /** Every event either removes the document or keeps the invariant, the list only growing.
      The tables keep up unless a sibling moves after the job's first table write. */
  lemma EventStep(cfg: Config, s: Sys, e: Event, j: Id, d: Id, doc0: Document,
                  outs: seq<Output>) returns (longer: seq<Output>)
    requires Healthy(cfg, s, j, d, doc0, outs)
    ensures longer == Grown(cfg, s, e, j, outs)
    ensures Onward(cfg, Apply(cfg, s, e), j, d, doc0, outs, longer)
    ensures !SiblingMoves(s, e, j, d) ==> AllOnward(cfg, s, Apply(cfg, s, e), j, d, doc0, outs, longer)
    ensures |outs| <= 5 ==> TablesOnward(cfg, s, Apply(cfg, s, e), j, d, doc0, outs, longer)
  {
    hide Good, Settled, SliceOf, WorkStep, At, Onward, TablesOnward, ReadyOnward, Purge, PurgeKb, Next, Extended, Fails;
    longer := outs;
    if !Enabled(s, e) {
      Unmoved(cfg, s, j, d, doc0, outs);
    } else {
      match e
      case Work(j2, choice) =>
        if j2 == j {
          longer := OwnWork(cfg, s, j, choice, d, doc0, outs);
        } else if s.workers[j2].doc == d {
          SiblingWork(cfg, s, j2, choice, j, d, doc0, outs);
          NoTablesYet(cfg, s, WorkStep(cfg, s, j2, choice), j, d, doc0, outs);
        } else {
          OtherWork(cfg, s, j2, choice, j, d, doc0, outs);
        }
      case Deliver(j2) => WorkerMoved(cfg, s, j2, Start, j, d, doc0, outs);
      case Raise(j2, error) => WorkerMoved(cfg, s, j2, Failing(error), j, d, doc0, outs);
      case Crash(j2) => WorkerMoved(cfg, s, j2, Idle, j, d, doc0, outs);
      case SkipLocked(j2) =>
        GoodPlace(cfg, s, j, d, doc0, outs);
        WorkerMoved(cfg, s, j2, if s.workers[j2].doc in s.db.docs then Ended else Cancelling, j, d, doc0, outs);
      case DeleteDocument(d2) => DocumentDeleted(cfg, s, d2, j, d, doc0, outs);
      case DeleteKb(kb) => KbDeleted(cfg, s, kb, j, d, doc0, outs);
      case Retry(d2, j2) => Retried(cfg, s, d2, j2, j, d, doc0, outs);
    }
  }

  lemma NoTablesYet(cfg: Config, s: Sys, next: Sys, j: Id, d: Id, doc0: Document, outs: seq<Output>)
    ensures |outs| <= 5 ==> TablesOnward(cfg, s, next, j, d, doc0, outs, outs)
  {
    hide OwnRows, ReceiptsFor, ChunksOf, PagesOf;
  }

  lemma OnwardIs(cfg: Config, s: Sys, next: Sys, j: Id, d: Id, doc0: Document, outs: seq<Output>, longer: seq<Output>)
    ensures Onward(cfg, next, j, d, doc0, outs, longer) ==>
              outs <= longer && (d in next.db.docs ==> Healthy(cfg, next, j, d, doc0, longer))
    ensures TablesOnward(cfg, s, next, j, d, doc0, outs, longer) && d in next.db.docs
            && Settled(cfg, SliceOf(s.db, j, d), d, doc0, outs) ==>
            Settled(cfg, SliceOf(next.db, j, d), d, doc0, longer)
    ensures ReadyOnward(s, next, d, outs, longer) && d in s.db.docs && d in next.db.docs
            && ReadyEarned(s.db.docs[d], outs) ==>
            ReadyEarned(next.db.docs[d], longer)
  {
    hide Healthy, Settled, SliceOf, ReadyEarned;
  }

  lemma Unmoved(cfg: Config, s: Sys, j: Id, d: Id, doc0: Document, outs: seq<Output>)
    requires Healthy(cfg, s, j, d, doc0, outs)
    ensures AllOnward(cfg, s, s, j, d, doc0, outs, outs)
  {
    hide Healthy, Settled, SliceOf, ReadyEarned;
  }

  // ---------- whole runs ----------

  /** A job just queued for a document: no attempt yet, no receipts. */
  ghost predicate Submitted(s: Sys, j: Id, d: Id) {
    && d in s.db.docs && s.db.docs[d].status == Pending
    && j in s.db.jobs && s.db.jobs[j].doc == d && s.db.jobs[j].status == Queued
    && j in s.workers && s.workers[j] == Worker(d, Idle)
    && forall k | k in s.db.receipts :: k.job != j
  }

  ghost function SubmittedDocument(s: Sys, j: Id, d: Id): Document
    requires Submitted(s, j, d)
  {
    s.db.docs[d]
  }

  /** Such systems exist. */
  lemma SubmittedExists() returns (s: Sys, j: Id, d: Id)
    ensures Submitted(s, j, d) && FkOk(s.db)
  {
    j, d := "job", "document";
    var document := Document("kb", "user", "sha", "other", None, Pending, None);
    var db := Db(map["kb" := Kb("name")], map[d := document], map[j := Job(d, Queued, 0, None)],
                 map[], map[], map[], map[], map[], [], map[], map[], map[], map[]);
    s := Sys(db, map[j := Worker(d, Idle)]);
  }

  /** The job has committed its first table write. */
  ghost predicate Indexed(db: Db, j: Id) {
    exists k :: k in db.receipts && k.job == j && k.step == TrackAWrite
  }

  /** No other worker of the document moves once the job has committed its first table write.
      Retries are allowed, and so are other workers before that and workers at rest. */
  ghost predicate Undisturbed(cfg: Config, s0: Sys, events: seq<Event>, j: Id, d: Id) {
    forall i | 0 <= i < |events| && SiblingMoves(Run(cfg, s0, events[..i]), events[i], j, d) ::
      !Indexed(Run(cfg, s0, events[..i]).db, j)
  }

  /** No other worker of the document moves at all. */
  ghost predicate Unaccompanied(cfg: Config, s0: Sys, events: seq<Event>, j: Id, d: Id) {
    forall i | 0 <= i < |events| :: !SiblingMoves(Run(cfg, s0, events[..i]), events[i], j, d)
  }

  lemma UndisturbedInit(cfg: Config, s0: Sys, events: seq<Event>, j: Id, d: Id)
    requires events != []
    ensures var n := |events| - 1;
            && (Undisturbed(cfg, s0, events, j, d) ==>
                  && Undisturbed(cfg, s0, events[..n], j, d)
                  && (SiblingMoves(Run(cfg, s0, events[..n]), events[n], j, d) ==> !Indexed(Run(cfg, s0, events[..n]).db, j)))
            && (Unaccompanied(cfg, s0, events, j, d) ==>
                  && Unaccompanied(cfg, s0, events[..n], j, d)
                  && !SiblingMoves(Run(cfg, s0, events[..n]), events[n], j, d))
  {
    hide SiblingMoves, Indexed, Run;
    var n := |events| - 1;
    forall i | 0 <= i < n
      ensures events[..n][..i] == events[..i] && events[..n][i] == events[i]
    {}
    if Undisturbed(cfg, s0, events, j, d) {
      forall i | 0 <= i < n && SiblingMoves(Run(cfg, s0, events[..n][..i]), events[..n][i], j, d)
        ensures !Indexed(Run(cfg, s0, events[..n][..i]).db, j)
      {
        assert SiblingMoves(Run(cfg, s0, events[..i]), events[i], j, d);
      }
    }
    if Unaccompanied(cfg, s0, events, j, d) {
      forall i | 0 <= i < n
        ensures !SiblingMoves(Run(cfg, s0, events[..n][..i]), events[..n][i], j, d)
      {
        assert !SiblingMoves(Run(cfg, s0, events[..i]), events[i], j, d);
      }
    }
  }

  lemma LongIsIndexed(cfg: Config, s: Sys, j: Id, d: Id, doc0: Document, outs: seq<Output>)
    requires Healthy(cfg, s, j, d, doc0, outs)
    ensures 5 < |outs| ==> Indexed(s.db, j)
  {
    if 5 < |outs| {
      ShortList(cfg, s, j, d, doc0, outs);
      ReceiptFound(cfg, j, d, doc0.sha256, outs, 5);
      var key := KeyOf(cfg, j, d, doc0.sha256, outs[..5]);
      assert key.step == TrackAWrite && key.job == j;
      OwnKey(s.db.receipts, key);
      assert key in s.db.receipts;
    }
    hide Healthy, Receipts, KeyOf;
  }

  lemma ShortList(cfg: Config, s: Sys, j: Id, d: Id, doc0: Document, outs: seq<Output>)
    requires Healthy(cfg, s, j, d, doc0, outs)
    ensures |outs| <= STEPS && ReceiptsFor(s.db.receipts, j) == Receipts(cfg, j, d, doc0.sha256, outs)
  {
    hide Receipts, Runner, PcOk;
  }

  lemma SubmittedHealthy(cfg: Config, s: Sys, j: Id, d: Id)
    requires Submitted(s, j, d)
    ensures Healthy(cfg, s, j, d, s.db.docs[d], []) && Settled(cfg, SliceOf(s.db, j, d), d, s.db.docs[d], [])
    ensures ReadyEarned(s.db.docs[d], [])
  {
    assert ReceiptsFor(s.db.receipts, j) == map[];
  }

  lemma DocGone(cfg: Config, s: Sys, e: Event, d: Id)
    requires d !in s.db.docs
    ensures d !in Apply(cfg, s, e).db.docs
  {
    hide KeyOf, WriteOf, Runner, ParseRowOf, Replace, Receipted, DropJobs, DropReceipts, DropRows, DropParses,
        DropCitations;
    if Enabled(s, e) && e.Work? {
      var d2 := s.workers[e.job].doc;
      var tx := Next(cfg, s.db, e.job, d2, s.workers[e.job].pc, e.choice).tx;
      TxKeepsGone(s.db, e.job, d2, tx, d);
      hide Next, Perform, Fails;
    }
  }

  lemma TxKeepsGone(db: Db, j: Id, d2: Id, tx: Tx, d: Id)
    requires d !in db.docs
    ensures d !in Perform(db, j, d2, tx).docs
  {
    hide Replace, Receipted, DropJobs, DropReceipts, DropRows, DropParses, DropCitations;
  }

  /** The invariant of every run that does not remove the document. */
  lemma {:induction false} RunKeeps(cfg: Config, s0: Sys, events: seq<Event>, j: Id, d: Id) returns (outs: seq<Output>)
    requires Submitted(s0, j, d)
    ensures var s, doc0 := Run(cfg, s0, events), s0.db.docs[d];
            d in s.db.docs ==>
              && outs == Committed(cfg, s0, events, j)
              && Healthy(cfg, s, j, d, doc0, outs)
              && (Undisturbed(cfg, s0, events, j, d) ==> Settled(cfg, SliceOf(s.db, j, d), d, doc0, outs))
              && (Unaccompanied(cfg, s0, events, j, d) ==> ReadyEarned(s.db.docs[d], outs))
  {
    hide Healthy, Settled, SliceOf, Apply, SiblingMoves, Indexed, Undisturbed, Unaccompanied, ReadyEarned, Onward,
        TablesOnward, ReadyOnward, Grown;
    outs := [];
    if events == [] {
      SubmittedHealthy(cfg, s0, j, d);
    } else {
      hide Submitted;
      var n := |events| - 1;
      var before, e := Run(cfg, s0, events[..n]), events[n];
      var prior := RunKeeps(cfg, s0, events[..n], j, d);
      DocOf(s0, j, d);
      if d in before.db.docs {
        outs := EventStep(cfg, before, e, j, d, s0.db.docs[d], prior);
        OnwardIs(cfg, before, Apply(cfg, before, e), j, d, s0.db.docs[d], prior, outs);
        UndisturbedInit(cfg, s0, events, j, d);
        LongIsIndexed(cfg, before, j, d, s0.db.docs[d], prior);
      } else {
        DocGone(cfg, before, e, d);
      }
    }
  }

  lemma DocOf(s: Sys, j: Id, d: Id)
    requires Submitted(s, j, d)
    ensures d in s.db.docs
  {}

  // ---------- what the receipts are ----------

  /** Receipt i is the one for step i, its input computed from the payloads before it. */
  ghost predicate IsPrefix(cfg: Config, receipts: map<ReceiptKey, Output>, j: Id, d: Id, sha256: string,
                           outs: seq<Output>) {
    && |outs| <= STEPS
    && (forall i | 0 <= i < |outs| ::
          var key := KeyOf(cfg, j, d, sha256, outs[..i]);
          key in receipts && receipts[key] == outs[i])
    && (forall k | k in receipts && k.job == j :: InPrefix(cfg, k, j, d, sha256, outs))
  }

  ghost predicate InPrefix(cfg: Config, k: ReceiptKey, j: Id, d: Id, sha256: string, outs: seq<Output>) {
    exists i :: 0 <= i < |outs| && k == KeyOf(cfg, j, d, sha256, outs[..i])
  }

  lemma {:induction false} ReceiptsInPrefix(cfg: Config, k: ReceiptKey, j: Id, d: Id, sha256: string, outs: seq<Output>)
    requires k in Receipts(cfg, j, d, sha256, outs)
    ensures InPrefix(cfg, k, j, d, sha256, outs)
  {
    hide KeyOf;
    var before := outs[..|outs| - 1];
    if k == KeyOf(cfg, j, d, sha256, before) {
      assert before == outs[..|before|];
    } else {
      ReceiptsInPrefix(cfg, k, j, d, sha256, before);
      var i :| 0 <= i < |before| && k == KeyOf(cfg, j, d, sha256, before[..i]);
      assert before[..i] == outs[..i];
    }
  }

  lemma HealthyPrefix(cfg: Config, s: Sys, j: Id, d: Id, doc0: Document, outs: seq<Output>)
    requires Healthy(cfg, s, j, d, doc0, outs)
    ensures IsPrefix(cfg, s.db.receipts, j, d, doc0.sha256, outs)
  {
    hide KeyOf, PcOk;
    var receipts := Receipts(cfg, j, d, doc0.sha256, outs);
    assert ReceiptsFor(s.db.receipts, j) == receipts;
    assert |outs| <= STEPS;
    hide Receipts, Possible;
    forall i | 0 <= i < |outs|
      ensures KeyOf(cfg, j, d, doc0.sha256, outs[..i]) in s.db.receipts
      ensures s.db.receipts[KeyOf(cfg, j, d, doc0.sha256, outs[..i])] == outs[i]
    {
      ReceiptFound(cfg, j, d, doc0.sha256, outs, i);
    }
    forall k | k in s.db.receipts && k.job == j
      ensures InPrefix(cfg, k, j, d, doc0.sha256, outs)
    {
      assert k in receipts;
      ReceiptsInPrefix(cfg, k, j, d, doc0.sha256, outs);
    }
  }

  /** At most one receipt per step. */
  lemma OnePerStep(cfg: Config, receipts: map<ReceiptKey, Output>, j: Id, d: Id, sha256: string, outs: seq<Output>,
                   a: ReceiptKey, b: ReceiptKey)
    requires IsPrefix(cfg, receipts, j, d, sha256, outs)
    requires a in receipts && b in receipts && a.job == b.job == j && a.step == b.step
    ensures a == b
  {
    assert InPrefix(cfg, a, j, d, sha256, outs) && InPrefix(cfg, b, j, d, sha256, outs);
    var m :| 0 <= m < |outs| && a == KeyOf(cfg, j, d, sha256, outs[..m]);
    var n :| 0 <= n < |outs| && b == KeyOf(cfg, j, d, sha256, outs[..n]);
    assert a.step == StepAt(m) && b.step == StepAt(n);
    if m < n {
      StepsDiffer(m, n);
    } else if n < m {
      StepsDiffer(n, m);
    }
  }

  /** Over any run, whatever else happens to the document and its other jobs: while the
      document exists the job's receipts are a prefix of the pipeline, one per step. */
  lemma ReceiptsStayAPrefix(cfg: Config, s0: Sys, events: seq<Event>, j: Id, d: Id) returns (outs: seq<Output>)
    requires Submitted(s0, j, d)
    ensures var s := Run(cfg, s0, events);
            d in s.db.docs ==>
              && IsPrefix(cfg, s.db.receipts, j, d, s0.db.docs[d].sha256, outs)
              && (forall a, b | a in s.db.receipts && b in s.db.receipts && a.job == b.job == j && a.step == b.step :: a == b)
              && j in s.db.jobs && (s.db.jobs[j].status == Succeeded ==> |outs| == STEPS)
  {
    outs := RunKeeps(cfg, s0, events, j, d);
    var s, sha256 := Run(cfg, s0, events), s0.db.docs[d].sha256;
    if d in s.db.docs {
      HealthyPrefix(cfg, s, j, d, s0.db.docs[d], outs);
      SucceededAll(cfg, s, j, d, s0.db.docs[d], outs);
      hide Healthy, IsPrefix, Run, Submitted, Settled;
      forall a, b | a in s.db.receipts && b in s.db.receipts && a.job == b.job == j && a.step == b.step
        ensures a == b
      {
        OnePerStep(cfg, s.db.receipts, j, d, sha256, outs, a, b);
      }
    }
  }

  lemma SucceededAll(cfg: Config, s: Sys, j: Id, d: Id, doc0: Document, outs: seq<Output>)
    requires Healthy(cfg, s, j, d, doc0, outs)
    ensures j in s.db.jobs && (s.db.jobs[j].status == Succeeded ==> |outs| == STEPS)
  {
    hide Receipts, Possible, PcOk;
  }

  /** The next step of the job calls the step's runner. */
  ghost predicate RunsRunner(cfg: Config, s: Sys, j: Id) {
    && j in s.workers
    && var w := s.workers[j];
       && w.pc.Live? && w.pc.at == Exec(Do)
       && KeyOf(cfg, j, w.doc, w.pc.snap.sha256, w.pc.mem) !in s.db.receipts
  }

  /** No runner executes once a receipt for its step is committed, whatever its input. */
  lemma NoStepRunsTwice(cfg: Config, s0: Sys, events: seq<Event>, j: Id, d: Id)
    requires Submitted(s0, j, d)
    ensures var s := Run(cfg, s0, events);
            d in s.db.docs && RunsRunner(cfg, s, j) ==>
              forall k | k in s.db.receipts && k.job == j :: k.step != StepAt(|s.workers[j].pc.mem|)
  {
    var s := Run(cfg, s0, events);
    var outs := RunKeeps(cfg, s0, events, j, d);
    if d in s.db.docs && RunsRunner(cfg, s, j) {
      ShortMem(cfg, SliceOf(s.db, j, d), s.workers[j].pc, j, d, s0.db.docs[d], outs);
      LookupIs(cfg, s.db, j, d, s.workers[j].pc, s0.db.docs[d], outs);
    }
    hide Settled, Good, KeyOf, Run;
  }
}
