/** Deletion against running attempts: what a removed document can leave behind. */
module DeletionWins {
  import opened Wrappers
  import opened Tables
  import opened Deletion
  import opened Ingest
  import opened IngestSlice
  import CrashRefinement

  ghost predicate HasAny<T>(rows: map<RowKey, T>, d: Id) {
    exists k :: k in rows && k.doc == d
  }

  ghost predicate HasRows(db: Db, d: Id) {
    HasAny(db.chunks, d) || HasAny(db.pages, d) || HasAny(db.assets, d)
  }

  ghost predicate NoJobs(db: Db, d: Id) {
    forall j | j in db.jobs :: db.jobs[j].doc != d
  }

  /** An attempt that will still look at its document before it ends. */
  predicate Unfinished(pc: Pc) {
    !pc.Ended? && !pc.DeadLettering?
  }

  ghost predicate Watched(s: Sys, d: Id) {
    exists j :: j in s.workers && s.workers[j].doc == d && Unfinished(s.workers[j].pc)
  }

  /** A removed document has no job and no parse result; stray rows have an attempt that will
      come across them. */
  ghost predicate Tidy(s: Sys, d: Id) {
    d !in s.db.docs ==>
      NoJobs(s.db, d) && d !in s.db.parses && (HasRows(s.db, d) ==> Watched(s, d))
  }

  // ---------- transactions ----------

  /** No row of d that was not there. */
  ghost predicate NoNewRows(was: Db, now: Db, d: Id) {
    && (HasRows(now, d) ==> HasRows(was, d))
    && (d in now.parses ==> d in was.parses)
    && (NoJobs(was, d) ==> NoJobs(now, d))
  }

  lemma DropRowsSub<T>(rows: map<RowKey, T>, ids: set<Id>)
    ensures forall k | k in DropRows(rows, ids) :: k in rows && k.doc !in ids
  {}

  lemma PurgeShrinks(db: Db, ids: set<Id>, withCitations: bool, d: Id)
    ensures NoNewRows(db, Purge(db, ids, withCitations), d)
    ensures d in ids ==> !HasRows(Purge(db, ids, withCitations), d) && d !in Purge(db, ids, withCitations).parses
                         && NoJobs(Purge(db, ids, withCitations), d) && d !in Purge(db, ids, withCitations).docs
  {
    DropRowsSub(db.chunks, ids);
    DropRowsSub(db.pages, ids);
    DropRowsSub(db.assets, ids);
    hide DropRows, DropReceipts, DropCitations, JobsOf;
  }

  lemma PurgeKbShrinks(db: Db, kb: Id, d: Id)
    ensures NoNewRows(db, PurgeKb(db, kb), d)
    ensures d in db.docs && d !in PurgeKb(db, kb).docs ==>
              !HasRows(PurgeKb(db, kb), d) && d !in PurgeKb(db, kb).parses && NoJobs(PurgeKb(db, kb), d)
  {
    var ids := DocsOf(db.docs, kb);
    PurgeShrinks(db, ids, false, d);
    assert forall k | k in DropKbChunks(DropRows(db.chunks, ids), kb) :: k in DropRows(db.chunks, ids);
    assert Purge(db, ids, false).docs == DropDocs(db.docs, ids);
    hide DropRows, DropReceipts, DropParses, DropJobs, DropKbChunks, DropKbCitations, UnlinkSessions, DropPermissions,
        JobsOf;
  }

  lemma ReplacedRows<T>(rows: map<RowKey, T>, d: Id, anew: seq<T>, other: Id)
    requires other != d
    ensures HasAny(Replace(rows, d, anew), other) ==> HasAny(rows, other)
  {}

  lemma WrittenBringsNothing(db: Db, d2: Id, write: Write, d: Id)
    requires d2 != d
    ensures HasRows(Written(db, d2, write), d) ==> HasRows(db, d)
  {
    hide Replace, HasAny;
    match write
    case WriteChunks(rows) => ReplacedRows(db.chunks, d2, rows, d);
    case WritePages(rows) => ReplacedRows(db.pages, d2, rows, d);
    case WriteAssets(rows) => ReplacedRows(db.assets, d2, rows, d);
    case NoRows =>
  }

  /** A worker of another document brings no row of this one. */
  lemma OtherBringsNothing(db: Db, j: Id, d2: Id, tx: Tx, d: Id)
    requires d2 != d && d !in db.docs
    ensures NoNewRows(db, Perform(db, j, d2, tx), d)
    ensures d !in Perform(db, j, d2, tx).docs
  {
    if tx.StepTx? {
      StepBringsNothing(db, j, d2, tx, d);
    } else if tx.PurgeTx? {
      PurgeShrinks(db, {d2}, true, d);
      PurgeColumns(db, {d2}, true);
      hide Purge, NoNewRows;
    } else {
      StatusBringsNothing(db, j, d2, tx, d);
    }
    hide NoNewRows;
  }

  lemma StepBringsNothing(db: Db, j: Id, d2: Id, tx: Tx, d: Id)
    requires d2 != d && d !in db.docs && tx.StepTx?
    ensures NoNewRows(db, Perform(db, j, d2, tx), d)
    ensures d !in Perform(db, j, d2, tx).docs
  {
    WrittenBringsNothing(db, d2, tx.write, d);
    WrittenColumns(db, d2, tx.write);
    hide Written, Receipted, HasAny;
  }

  lemma StatusBringsNothing(db: Db, j: Id, d2: Id, tx: Tx, d: Id)
    requires d2 != d && d !in db.docs && !tx.StepTx? && !tx.PurgeTx?
    ensures NoNewRows(db, Perform(db, j, d2, tx), d)
    ensures d !in Perform(db, j, d2, tx).docs
  {
    hide Receipted, HasAny;
  }

  lemma WrittenColumns(db: Db, d: Id, write: Write)
    ensures var now := Written(db, d, write);
            now.docs == db.docs && now.jobs == db.jobs && now.parses == db.parses && now.receipts == db.receipts
  {
    hide Replace;
  }

  lemma PurgeColumns(db: Db, ids: set<Id>, withCitations: bool)
    ensures Purge(db, ids, withCitations).audits == db.audits
    ensures Purge(db, ids, withCitations).docs.Keys == db.docs.Keys - ids
  {
    hide DropJobs, DropRows, DropReceipts, DropParses, DropCitations, JobsOf;
  }

  /** A transaction on a removed document can add stray rows, and nothing else. */
  lemma TxAfterRemoval(db: Db, j: Id, d: Id, tx: Tx)
    requires d !in db.docs
    ensures var now := Perform(db, j, d, tx);
            && d !in now.docs && now.audits == db.audits
            && (NoJobs(db, d) ==> NoJobs(now, d)) && (d in now.parses ==> d in db.parses)
            && (!tx.StepTx? && !tx.PurgeTx? ==> now == db)
            && (tx.PurgeTx? ==> !HasRows(now, d))
  {
    hide Replace, Receipted, Purge, HasAny;
    PurgeShrinks(db, {d}, true, d);
    PurgeColumns(db, {d}, true);
  }

  /** Only the purge itself, and an attempt already giving up, end without another look. */
  lemma NextAfterRemoval(cfg: Config, db: Db, j: Id, d: Id, pc: Pc, choice: Output)
    requires d !in db.docs
    ensures var next := Next(cfg, db, j, d, pc, choice);
            && (next.tx == NoTx && Unfinished(pc) ==> Unfinished(next.then_) && Unfinished(next.else_))
            && (next.tx.StepTx? ==> Unfinished(next.then_) && Unfinished(next.else_))
            && (next.tx.BeginTx? || next.tx.MarkTx? ==> Fails(cfg.fk, db, j, d, next.tx) && Unfinished(next.else_))
            && (next.tx.DeadTx? ==> !Unfinished(pc))
            && !next.tx.FinishTx?
  {
    hide KeyOf, WriteOf, Runner, ParseRowOf;
  }

  function AuditsOf(audits: seq<AuditRow>, d: Id): seq<AuditRow> {
    if audits == [] then []
    else
      var n := |audits| - 1;
      AuditsOf(audits[..n], d) + if audits[n].doc == d then [audits[n]] else []
  }

  // ---------- one event ----------

  lemma MoveKeepsWatch(s: Sys, j: Id, pc: Pc, d: Id)
    requires j in s.workers
    requires s.workers[j].doc != d || Unfinished(pc) || !Unfinished(s.workers[j].pc)
    ensures Watched(s, d) ==> Watched(At(s, j, pc), d)
  {
    if Watched(s, d) {
      var j2 :| j2 in s.workers && s.workers[j2].doc == d && Unfinished(s.workers[j2].pc);
      var after := At(s, j, pc);
      assert j2 in after.workers && after.workers[j2].doc == d && Unfinished(after.workers[j2].pc);
    }
  }

  lemma MoverWatches(s: Sys, j: Id, pc: Pc, d: Id, db: Db)
    requires j in s.workers && s.workers[j].doc == d && Unfinished(pc)
    ensures Watched(At(s, j, pc).(db := db), d)
  {
    var after := At(s, j, pc).(db := db);
    assert j in after.workers && after.workers[j].doc == d && Unfinished(after.workers[j].pc);
  }

  lemma WatchIgnoresDb(s: Sys, db: Db, d: Id)
    ensures Watched(s.(db := db), d) == Watched(s, d)
  {
    hide Unfinished;
  }

  lemma OtherWorkTidy(cfg: Config, s: Sys, j: Id, choice: Output, d: Id)
    requires Tidy(s, d) && d !in s.db.docs && j in s.workers && s.workers[j].doc != d
    ensures Tidy(WorkStep(cfg, s, j, choice), d)
  {
    var d2 := s.workers[j].doc;
    var next := Next(cfg, s.db, j, d2, s.workers[j].pc, choice);
    var now := Perform(s.db, j, d2, next.tx);
    OtherBringsNothing(s.db, j, d2, next.tx, d);
    MoveKeepsWatch(s, j, next.then_, d);
    MoveKeepsWatch(s, j, next.else_, d);
    WatchIgnoresDb(At(s, j, next.then_), now, d);
    hide Next, Perform, Fails, HasRows, NoJobs, Watched, Unfinished;
  }

  lemma OwnWorkTidy(cfg: Config, s: Sys, j: Id, choice: Output, d: Id)
    requires Tidy(s, d) && d !in s.db.docs && j in s.workers && s.workers[j].doc == d
    ensures Tidy(WorkStep(cfg, s, j, choice), d)
  {
    hide Next, Perform, Fails, HasRows, NoJobs, Watched, At;
    var pc := s.workers[j].pc;
    var next := Next(cfg, s.db, j, d, pc, choice);
    var now := Perform(s.db, j, d, next.tx);
    TxAfterRemoval(s.db, j, d, next.tx);
    NextAfterRemoval(cfg, s.db, j, d, pc, choice);
    AtDb(s, j, next.else_);
    if Fails(cfg.fk, s.db, j, d, next.tx) {
      NeverFails(cfg.fk, s.db, j, d, next.tx);
      MoverWatches(s, j, next.else_, d, s.db);
      AtSame(s, j, next.else_);
    } else if Unfinished(next.then_) {
      MoverWatches(s, j, next.then_, d, now);
    } else {
      MoveKeepsWatchIf(s, j, next.then_, d);
      WatchIgnoresDb(At(s, j, next.then_), now, d);
    }
  }

  lemma MoveKeepsWatchIf(s: Sys, j: Id, pc: Pc, d: Id)
    requires j in s.workers
    ensures !Unfinished(s.workers[j].pc) && Watched(s, d) ==> Watched(At(s, j, pc), d)
  {
    if !Unfinished(s.workers[j].pc) {
      MoveKeepsWatch(s, j, pc, d);
    }
  }

  lemma AtDb(s: Sys, j: Id, pc: Pc)
    requires j in s.workers
    ensures At(s, j, pc).db == s.db
  {}

  lemma AtSame(s: Sys, j: Id, pc: Pc)
    requires j in s.workers
    ensures At(s, j, pc).(db := s.db) == At(s, j, pc)
  {}

  lemma NeverFails(fk: bool, db: Db, j: Id, d: Id, tx: Tx)
    ensures Fails(fk, db, j, d, tx) ==> tx.BeginTx? || tx.MarkTx? || tx.StepTx?
  {}

  lemma MoveTidy(s: Sys, j: Id, pc: Pc, d: Id)
    requires Tidy(s, d) && j in s.workers && (s.workers[j].doc == d && d !in s.db.docs ==> Unfinished(pc))
    ensures Tidy(At(s, j, pc), d)
  {
    if d !in s.db.docs {
      MoveKeepsWatch(s, j, pc, d);
    }
    hide HasRows, NoJobs, Watched, Unfinished;
  }

  lemma ShrinkTidy(s: Sys, db: Db, d: Id)
    requires Tidy(s, d) && d !in s.db.docs && NoNewRows(s.db, db, d)
    ensures Tidy(s.(db := db), d)
  {
    WatchIgnoresDb(s, db, d);
    hide HasRows, NoJobs, Watched;
  }

  lemma DocStays(db: Db, j: Id, d2: Id, tx: Tx, d: Id)
    requires d in db.docs && (tx.PurgeTx? ==> d2 != d)
    ensures d in Perform(db, j, d2, tx).docs
  {
    PurgeColumns(db, {d2}, true);
    hide Written, Receipted, Purge;
    match tx
    case StepTx(_, _, _, _, write) => WrittenColumns(db, d2, write);
    case _ =>
  }

  /** An event that removes the document removes everything of it. */
  lemma RemovalTidy(cfg: Config, s: Sys, e: Event, d: Id)
    requires d in s.db.docs && d !in Apply(cfg, s, e).db.docs
    ensures Tidy(Apply(cfg, s, e), d)
  {
    hide HasRows, NoJobs, Watched, Next, Fails, Purge, PurgeKb;
    match e
    case Work(j, choice) =>
      var d2 := s.workers[j].doc;
      var tx := Next(cfg, s.db, j, d2, s.workers[j].pc, choice).tx;
      if !tx.PurgeTx? || d2 != d {
        DocStays(s.db, j, d2, tx, d);
        hide Perform;
        assert false;
      }
      PurgeShrinks(s.db, {d2}, true, d);
    case DeleteDocument(d2) =>
      PurgeShrinks(s.db, {d2}, true, d);
      PurgeColumns(s.db, {d2}, true);
    case DeleteKb(kb) =>
      PurgeKbShrinks(s.db, kb, d);
    case _ =>
  }

  lemma RetryTidy(cfg: Config, s: Sys, d2: Id, j2: Id, d: Id)
    requires Tidy(s, d) && d !in s.db.docs && Enabled(s, Retry(d2, j2))
    ensures Tidy(Apply(cfg, s, Retry(d2, j2)), d)
  {
    var after := Apply(cfg, s, Retry(d2, j2));
    if Watched(s, d) {
      var j3 :| j3 in s.workers && s.workers[j3].doc == d && Unfinished(s.workers[j3].pc);
      assert j3 in after.workers && after.workers[j3] == s.workers[j3];
    }
    hide HasAny;
  }

  lemma TidyStep(cfg: Config, s: Sys, e: Event, d: Id)
    requires Tidy(s, d)
    ensures Tidy(Apply(cfg, s, e), d)
  {
    hide Tidy, WorkStep, At, Purge, PurgeKb;
    if d in s.db.docs {
      if d !in Apply(cfg, s, e).db.docs {
        RemovalTidy(cfg, s, e, d);
      } else {
        PresentTidy(Apply(cfg, s, e), d);
      }
    } else if Enabled(s, e) {
      match e
      case Work(j, choice) =>
        if s.workers[j].doc == d {
          OwnWorkTidy(cfg, s, j, choice, d);
        } else {
          OtherWorkTidy(cfg, s, j, choice, d);
        }
      case Deliver(j) => MoveTidy(s, j, Start, d);
      case Raise(j, error) => MoveTidy(s, j, Failing(error), d);
      case Crash(j) => MoveTidy(s, j, Idle, d);
      case SkipLocked(j) => MoveTidy(s, j, if s.workers[j].doc in s.db.docs then Ended else Cancelling, d);
      case DeleteDocument(d2) =>
        PurgeShrinks(s.db, {d2}, true, d);
        ShrinkTidy(s, Purge(s.db, {d2}, true), d);
      case DeleteKb(kb) =>
        PurgeKbShrinks(s.db, kb, d);
        ShrinkTidy(s, PurgeKb(s.db, kb), d);
      case Retry(d2, j2) => RetryTidy(cfg, s, d2, j2, d);
    }
  }

  lemma PresentTidy(s: Sys, d: Id)
    requires d in s.db.docs
    ensures Tidy(s, d)
  {}

  // ---------- whole runs ----------

  lemma {:induction false} RunTidy(cfg: Config, s0: Sys, events: seq<Event>, d: Id)
    requires Tidy(s0, d)
    ensures Tidy(Run(cfg, s0, events), d)
  {
    hide Tidy, Apply;
    if events != [] {
      RunTidy(cfg, s0, events[..|events| - 1], d);
      TidyStep(cfg, Run(cfg, s0, events[..|events| - 1]), events[|events| - 1], d);
    }
  }

  predicate AllEnded(s: Sys, d: Id) {
    forall j | j in s.workers && s.workers[j].doc == d :: s.workers[j].pc.Ended?
  }

  /** Deletion wins: under every interleaving, once the document is gone and every attempt on
      it has ended, no row of it remains, although writes may have landed after the removal. */
  lemma NothingRemains(cfg: Config, s0: Sys, events: seq<Event>, d: Id)
    requires Tidy(s0, d)
    ensures var s := Run(cfg, s0, events);
            d !in s.db.docs && AllEnded(s, d) ==>
              && (forall k | k in s.db.chunks :: k.doc != d) && (forall k | k in s.db.pages :: k.doc != d)
              && (forall k | k in s.db.assets :: k.doc != d) && d !in s.db.parses
              && (forall j | j in s.db.jobs :: s.db.jobs[j].doc != d)
  {
    RunTidy(cfg, s0, events, d);
    hide Run;
  }

  // ---------- removal is final ----------

  lemma {:induction false} AuditsAppend(audits: seq<AuditRow>, row: AuditRow, d: Id)
    ensures AuditsOf(audits + [row], d) == AuditsOf(audits, d) + if row.doc == d then [row] else []
  {
    assert (audits + [row])[..|audits|] == audits;
  }

  lemma TxAudits(db: Db, j: Id, d2: Id, tx: Tx, d: Id)
    requires d !in db.docs
    ensures AuditsOf(Perform(db, j, d2, tx).audits, d) == AuditsOf(db.audits, d)
  {
    hide AuditsOf, Written, Receipted, Purge;
    PurgeColumns(db, {d2}, true);
    match tx
    case DeadTx(error) =>
      if j in db.jobs && d2 in db.docs {
        AuditsAppend(db.audits, StepFailed(d2, j, db.docs[d2].uploader, Cut(error, AUDIT_ERROR_LIMIT)), d);
      }
    case StepTx(_, _, _, _, write) => WrittenAudits(db, d2, write);
    case _ =>
  }

  lemma WrittenAudits(db: Db, d: Id, write: Write)
    ensures Written(db, d, write).audits == db.audits
  {
    hide Replace;
  }

  lemma EventAudits(cfg: Config, s: Sys, e: Event, d: Id)
    requires d !in s.db.docs
    ensures AuditsOf(Apply(cfg, s, e).db.audits, d) == AuditsOf(s.db.audits, d)
  {
    hide AuditsOf, Next, Perform, Fails, Purge;
    match e
    case Work(j, choice) =>
      if j in s.workers {
        TxAudits(s.db, j, s.workers[j].doc, Next(cfg, s.db, j, s.workers[j].doc, s.workers[j].pc, choice).tx, d);
      }
    case DeleteDocument(d2) => PurgeColumns(s.db, {d2}, true);
    case DeleteKb(kb) => PurgeColumns(s.db, DocsOf(s.db.docs, kb), false);
    case _ =>
  }

  /** A removed document never comes back, so no step marks it ready, and no attempt
      dead-letters it. */
  lemma {:induction false} RemovalIsFinal(cfg: Config, s: Sys, events: seq<Event>, d: Id)
    requires d !in s.db.docs
    ensures d !in Run(cfg, s, events).db.docs
    ensures AuditsOf(Run(cfg, s, events).db.audits, d) == AuditsOf(s.db.audits, d)
  {
    hide AuditsOf, Apply;
    if events != [] {
      var n := |events| - 1;
      RemovalIsFinal(cfg, s, events[..n], d);
      CrashRefinement.DocGone(cfg, Run(cfg, s, events[..n]), events[n], d);
      EventAudits(cfg, Run(cfg, s, events[..n]), events[n], d);
    }
  }

  // ---------- with foreign keys ----------

  lemma RowsReplaced<T>(rows: map<RowKey, T>, d: Id, anew: seq<T>, docs: set<Id>)
    requires RowsOk(rows, docs) && (anew != [] ==> d in docs)
    ensures RowsOk(Replace(rows, d, anew), docs)
  {}

  lemma ChunksReplaced(rows: map<RowKey, ChunkRow>, d: Id, anew: seq<ChunkRow>, kbs: set<Id>)
    requires ChunksOk(rows, kbs) && forall r | r in anew :: r.kb in kbs
    ensures ChunksOk(Replace(rows, d, anew), kbs)
  {
    assert forall k | k in Numbered(d, anew) :: Numbered(d, anew)[k] in anew;
  }

  /** What the rows of a write refer to exists. */
  ghost predicate WriteRefers(db: Db, d: Id, write: Write) {
    && (write.WriteChunks? ==> (write.chunkRows != [] ==> d in db.docs) && forall r | r in write.chunkRows :: r.kb in db.kbs)
    && (write.WritePages? && write.pageRows != [] ==> d in db.docs)
    && (write.WriteAssets? && write.assetRows != [] ==> d in db.docs)
  }

  lemma CommitRefers(db: Db, j: Id, d: Id, tx: Tx)
    requires tx.StepTx? && !Fails(true, db, j, d, tx)
    ensures WriteRefers(db, d, tx.write) && (!tx.cached ==> j in db.jobs)
  {}

  lemma FkWritten(db: Db, d: Id, write: Write)
    requires FkOk(db) && WriteRefers(db, d, write)
    ensures FkOk(Written(db, d, write))
  {
    hide DocsOk, JobsOk, ChunksOk, ReceiptsOk, RowsOk, ParsesOk, SessionsOk, MessagesOk, CitationsOk, PermissionsOk,
        Replace;
    match write
    case WriteChunks(rows) =>
      RowsReplaced(db.chunks, d, rows, db.docs.Keys);
      ChunksReplaced(db.chunks, d, rows, db.kbs.Keys);
    case WritePages(rows) => RowsReplaced(db.pages, d, rows, db.docs.Keys);
    case WriteAssets(rows) => RowsReplaced(db.assets, d, rows, db.docs.Keys);
    case NoRows =>
  }

  lemma FkReceipted(db: Db, key: ReceiptKey, out: Output, cached: bool)
    requires FkOk(db) && (!cached ==> key.job in db.jobs)
    ensures FkOk(db.(receipts := Receipted(db.receipts, key, out, cached)))
  {
    hide DocsOk, JobsOk, ChunksOk, RowsOk, ParsesOk, SessionsOk, MessagesOk, CitationsOk, PermissionsOk;
  }

  lemma FkStepTx(db: Db, j: Id, d: Id, tx: Tx)
    requires FkOk(db) && tx.StepTx? && !Fails(true, db, j, d, tx)
    ensures FkOk(Perform(db, j, d, tx))
  {
    hide FkOk, Receipted, Replace, Fails, WriteRefers, Written;
    CommitRefers(db, j, d, tx);
    FkWritten(db, d, tx.write);
    WrittenColumns(db, d, tx.write);
    FkReceipted(Written(db, d, tx.write), ReceiptKey(j, tx.step, tx.input), tx.out, tx.cached);
  }

  lemma FkRowsUpdated(db: Db, j: Id, d: Id, job: Job, doc: Document)
    requires FkOk(db) && j in db.jobs && d in db.docs && job.doc == db.jobs[j].doc && doc.kb == db.docs[d].kb
    ensures FkOk(WithDoc(WithJob(db, j, job), d, doc)) && FkOk(WithDoc(db, d, doc))
    ensures WithDoc(WithJob(db, j, job), d, doc).docs.Keys == db.docs.Keys
    ensures WithDoc(WithJob(db, j, job), d, doc).jobs.Keys == db.jobs.Keys
  {
    hide ChunksOk, RowsOk, ParsesOk, SessionsOk, MessagesOk, CitationsOk, PermissionsOk, ReceiptsOk;
    assert db.docs[d := doc].Keys == db.docs.Keys;
    assert db.jobs[j := job].Keys == db.jobs.Keys;
  }

  lemma FkFinished(db: Db, j: Id, d: Id, parse: ParseRow, key: ReceiptKey, out: Output, cached: bool)
    requires FkOk(db) && j in db.jobs && d in db.docs && key.job == j
    ensures FkOk(db.(parses := db.parses[d := parse], receipts := Receipted(db.receipts, key, out, cached)))
  {
    hide DocsOk, JobsOk, ChunksOk, RowsOk, SessionsOk, MessagesOk, CitationsOk, PermissionsOk;
  }

  lemma FkAudited(db: Db, audits: seq<AuditRow>)
    requires FkOk(db)
    ensures FkOk(db.(audits := audits))
  {
    hide DocsOk, JobsOk, ChunksOk, RowsOk, ParsesOk, SessionsOk, MessagesOk, CitationsOk, PermissionsOk, ReceiptsOk;
  }

  lemma FkTx(db: Db, j: Id, d: Id, tx: Tx)
    requires FkOk(db) && !Fails(true, db, j, d, tx)
    ensures FkOk(Perform(db, j, d, tx))
  {
    hide FkOk, Receipted, Written, Purge, Fails;
    match tx
    case NoTx =>
    case BeginTx =>
      if j in db.jobs && d in db.docs {
        FkRowsUpdated(db, j, d, db.jobs[j].(status := Running, attempt := db.jobs[j].attempt + 1), db.docs[d].(status := Ocr));
      }
    case MarkTx(status) =>
      if d in db.docs {
        FkDocUpdated(db, d, db.docs[d].(status := status));
      }
    case StepTx(_, _, _, _, _) => FkStepTx(db, j, d, tx);
    case FinishTx(input, out, parse) =>
      if j in db.jobs && d in db.docs {
        var job := db.jobs[j].(status := Succeeded, lastError := None);
        var doc := db.docs[d].(status := Ready, pageCount := Some(parse.outline.pageCount));
        var key := ReceiptKey(j, Finalize, input);
        FkRowsUpdated(db, j, d, job, doc);
        FkFinished(WithDoc(WithJob(db, j, job), d, doc), j, d, parse, key, out, key in db.receipts);
      }
    case DeadTx(error) =>
      if j in db.jobs && d in db.docs {
        var job := db.jobs[j].(status := Dead, lastError := Some(Cut(error, ERROR_LIMIT)));
        var doc := db.docs[d].(status := Failed);
        FkRowsUpdated(db, j, d, job, doc);
        FkAudited(WithDoc(WithJob(db, j, job), d, doc),
                  db.audits + [StepFailed(d, j, db.docs[d].uploader, Cut(error, AUDIT_ERROR_LIMIT))]);
      }
    case PurgeTx => FkPurge(db, {d}, true);
  }

  lemma FkDocUpdated(db: Db, d: Id, doc: Document)
    requires FkOk(db) && d in db.docs && doc.kb == db.docs[d].kb
    ensures FkOk(WithDoc(db, d, doc))
  {
    hide ChunksOk, RowsOk, ParsesOk, SessionsOk, MessagesOk, CitationsOk, PermissionsOk, ReceiptsOk, JobsOk;
    assert db.docs[d := doc].Keys == db.docs.Keys;
  }

  lemma FkRetry(db: Db, d: Id, j: Id, job: Job)
    requires FkOk(db) && d in db.docs && job.doc == d
    ensures FkOk(WithJob(db, j, job))
  {
    hide DocsOk, ChunksOk, RowsOk, ParsesOk, SessionsOk, MessagesOk, CitationsOk, PermissionsOk;
  }

  /** A database that enforces its foreign keys keeps them under every event. */
  lemma FkEvent(cfg: Config, s: Sys, e: Event)
    requires cfg.fk && FkOk(s.db)
    ensures FkOk(Apply(cfg, s, e).db)
  {
    hide FkOk, Next, Perform, Fails, Purge, PurgeKb;
    if Enabled(s, e) {
      match e
      case Work(j, choice) =>
        var d := s.workers[j].doc;
        var tx := Next(cfg, s.db, j, d, s.workers[j].pc, choice).tx;
        if !Fails(true, s.db, j, d, tx) {
          FkTx(s.db, j, d, tx);
        }
      case DeleteDocument(d) => FkPurge(s.db, {d}, true);
      case DeleteKb(kb) => FkPurgeKb(s.db, kb);
      case Retry(d, j) =>
        FkDocUpdated(s.db, d, s.db.docs[d].(status := Pending));
        FkRetry(WithDoc(s.db, d, s.db.docs[d].(status := Pending)), d, j, Job(d, Queued, 0, None));
      case _ =>
    }
  }

  lemma {:induction false} FkRun(cfg: Config, s0: Sys, events: seq<Event>)
    requires cfg.fk && FkOk(s0.db)
    ensures FkOk(Run(cfg, s0, events).db)
  {
    hide FkOk, Apply;
    if events != [] {
      FkRun(cfg, s0, events[..|events| - 1]);
      FkEvent(cfg, Run(cfg, s0, events[..|events| - 1]), events[|events| - 1]);
    }
  }

  /** Worker and job row agree on the document. */
  ghost predicate Consistent(s: Sys) {
    forall j | j in s.workers && j in s.db.jobs :: s.db.jobs[j].doc == s.workers[j].doc
  }

  lemma JobDocsKept(db: Db, j: Id, d: Id, tx: Tx, k: Id)
    ensures k in Perform(db, j, d, tx).jobs ==> k in db.jobs && Perform(db, j, d, tx).jobs[k].doc == db.jobs[k].doc
  {
    hide Written, Receipted, DropDocs, DropRows, DropReceipts, DropParses, DropCitations, JobsOf;
    match tx
    case StepTx(_, _, _, _, write) => WrittenColumns(db, d, write);
    case _ =>
  }

  lemma ConsistentEvent(cfg: Config, s: Sys, e: Event)
    requires Consistent(s)
    ensures Consistent(Apply(cfg, s, e))
  {
    hide Next, Perform, Fails, DropDocs, DropRows, DropReceipts, DropParses, DropCitations, JobsOf;
    if Enabled(s, e) && e.Work? {
      var d := s.workers[e.job].doc;
      var tx := Next(cfg, s.db, e.job, d, s.workers[e.job].pc, e.choice).tx;
      forall k | k in s.workers && k in Apply(cfg, s, e).db.jobs
        ensures Apply(cfg, s, e).db.jobs[k].doc == s.workers[k].doc
      {
        JobDocsKept(s.db, e.job, d, tx, k);
      }
    }
  }

  lemma {:induction false} ConsistentRun(cfg: Config, s0: Sys, events: seq<Event>)
    requires Consistent(s0)
    ensures Consistent(Run(cfg, s0, events))
  {
    hide Consistent, Apply;
    if events != [] {
      ConsistentRun(cfg, s0, events[..|events| - 1]);
      ConsistentEvent(cfg, Run(cfg, s0, events[..|events| - 1]), events[|events| - 1]);
    }
  }

  /** With foreign keys enforced nothing needs to end first: as soon as the document is gone
      no row refers to it, receipts included, and none can be added. */
  lemma NothingRemainsUnderForeignKeys(cfg: Config, s0: Sys, events: seq<Event>, d: Id)
    requires cfg.fk && FkOk(s0.db) && Consistent(s0)
    ensures var s := Run(cfg, s0, events);
            d !in s.db.docs ==>
              && !HasRows(s.db, d) && d !in s.db.parses && NoJobs(s.db, d)
              && forall k | k in s.db.receipts :: k.job in s.workers ==> s.workers[k.job].doc != d
  {
    FkRun(cfg, s0, events);
    ConsistentRun(cfg, s0, events);
    hide Run, DocsOk, SessionsOk, MessagesOk, CitationsOk, PermissionsOk, ChunksOk;
  }
}
