/** What one job and its document see of the database, and how every transaction and event
    changes that view. */
module IngestSlice {
  import opened Wrappers
  import opened Tables
  import opened Deletion
  import opened Ingest
  import PageIndex

  /** The rows of one document and one job. */
  datatype Slice = Slice(doc: Option<Document>, job: Option<Job>, receipts: map<ReceiptKey, Output>,
                         chunks: map<RowKey, ChunkRow>, pages: map<RowKey, PageIndex.PageRow>,
                         assets: map<RowKey, Asset>, parse: Option<ParseRow>)

  function Get<T>(rows: map<Id, T>, id: Id): Option<T> {
    if id in rows then Some(rows[id]) else None
  }

  function ReceiptsFor(receipts: map<ReceiptKey, Output>, j: Id): map<ReceiptKey, Output> {
    map k | k in receipts && k.job == j :: receipts[k]
  }

  function OwnRows<T>(rows: map<RowKey, T>, d: Id): map<RowKey, T> {
    map k | k in rows && k.doc == d :: rows[k]
  }

  function SliceOf(db: Db, j: Id, d: Id): Slice {
    Slice(Get(db.docs, d), Get(db.jobs, j), ReceiptsFor(db.receipts, j), OwnRows(db.chunks, d),
          OwnRows(db.pages, d), OwnRows(db.assets, d), Get(db.parses, d))
  }

  // ---------- tables under the single writes ----------

  lemma OwnReplaced<T>(rows: map<RowKey, T>, d: Id, anew: seq<T>)
    ensures OwnRows(Replace(rows, d, anew), d) == Numbered(d, anew)
  {}

  lemma OtherReplaced<T>(rows: map<RowKey, T>, d: Id, anew: seq<T>, other: Id)
    requires other != d
    ensures OwnRows(Replace(rows, d, anew), other) == OwnRows(rows, other)
  {}

  lemma OtherDropped<T>(rows: map<RowKey, T>, ids: set<Id>, other: Id)
    requires other !in ids
    ensures OwnRows(DropRows(rows, ids), other) == OwnRows(rows, other)
  {}

  lemma OwnReceipted(receipts: map<ReceiptKey, Output>, key: ReceiptKey, out: Output, cached: bool)
    ensures ReceiptsFor(Receipted(receipts, key, out, cached), key.job)
            == Receipted(ReceiptsFor(receipts, key.job), key, out, cached)
  {}

  lemma OtherReceipted(receipts: map<ReceiptKey, Output>, key: ReceiptKey, out: Output, cached: bool, j: Id)
    requires j != key.job
    ensures ReceiptsFor(Receipted(receipts, key, out, cached), j) == ReceiptsFor(receipts, j)
  {}

  lemma OtherReceiptsDropped(receipts: map<ReceiptKey, Output>, jobs: set<Id>, j: Id)
    requires j !in jobs
    ensures ReceiptsFor(DropReceipts(receipts, jobs), j) == ReceiptsFor(receipts, j)
  {}

  // ---------- one's own transactions ----------

  function SliceWritten(sl: Slice, d: Id, write: Write): Slice {
    sl.(chunks := if write.WriteChunks? then Numbered(d, write.chunkRows) else sl.chunks,
        pages := if write.WritePages? then Numbered(d, write.pageRows) else sl.pages,
        assets := if write.WriteAssets? then Numbered(d, write.assetRows) else sl.assets)
  }

  /** `Perform` seen through the slice. */
  function SlicePerform(sl: Slice, j: Id, d: Id, tx: Tx): Slice
    requires sl.doc.Some? && sl.job.Some?
  {
    var doc, job := sl.doc.value, sl.job.value;
    match tx
    case NoTx => sl
    case BeginTx => sl.(job := Some(job.(status := Running, attempt := job.attempt + 1)), doc := Some(doc.(status := Ocr)))
    case MarkTx(status) => sl.(doc := Some(doc.(status := status)))
    case StepTx(step, input, out, cached, write) =>
      SliceWritten(sl, d, write).(receipts := Receipted(sl.receipts, ReceiptKey(j, step, input), out, cached))
    case FinishTx(input, out, parse) =>
      var key := ReceiptKey(j, Finalize, input);
      sl.(job := Some(job.(status := Succeeded, lastError := None)),
          doc := Some(doc.(status := Ready, pageCount := Some(parse.outline.pageCount))),
          parse := Some(parse),
          receipts := Receipted(sl.receipts, key, out, key in sl.receipts))
    case DeadTx(error) =>
      sl.(job := Some(job.(status := Dead, lastError := Some(Cut(error, ERROR_LIMIT)))),
          doc := Some(doc.(status := Failed)))
    case PurgeTx => sl
  }

  lemma OwnWrite(db: Db, j: Id, d: Id, write: Write)
    ensures SliceOf(Written(db, d, write), j, d) == SliceWritten(SliceOf(db, j, d), d, write)
  {
    match write
    case NoRows =>
    case WriteChunks(rows) => OwnReplaced(db.chunks, d, rows);
    case WritePages(rows) => OwnReplaced(db.pages, d, rows);
    case WriteAssets(rows) => OwnReplaced(db.assets, d, rows);
  }

  lemma OwnTx(db: Db, j: Id, d: Id, tx: Tx)
    requires j in db.jobs && d in db.docs && tx != PurgeTx
    ensures SliceOf(Perform(db, j, d, tx), j, d) == SlicePerform(SliceOf(db, j, d), j, d, tx)
  {
    hide OwnRows, ReceiptsFor, Replace, Numbered;
    match tx
    case StepTx(step, input, out, cached, write) =>
      OwnWrite(db, j, d, write);
      OwnReceipted(db.receipts, ReceiptKey(j, step, input), out, cached);
    case FinishTx(input, out, parse) =>
      var key := ReceiptKey(j, Finalize, input);
      OwnReceipted(db.receipts, key, out, key in db.receipts);
      OwnKey(db.receipts, key);
    case _ =>
  }

  lemma OwnKey(receipts: map<ReceiptKey, Output>, key: ReceiptKey)
    ensures key in receipts <==> key in ReceiptsFor(receipts, key.job)
    ensures key in receipts ==> ReceiptsFor(receipts, key.job)[key] == receipts[key]
  {}

  // ---------- other jobs' transactions ----------

  /** A job of another document changes nothing here. */
  lemma OtherTx(db: Db, j: Id, d: Id, other: Id, doc: Id, tx: Tx)
    requires other != j && doc != d && (j in db.jobs ==> db.jobs[j].doc == d)
    ensures SliceOf(Perform(db, other, doc, tx), j, d) == SliceOf(db, j, d)
  {
    hide OwnRows, ReceiptsFor, Replace, Numbered, Receipted, DropRows;
    match tx
    case StepTx(step, input, out, cached, write) =>
      OtherReceipted(db.receipts, ReceiptKey(other, step, input), out, cached, j);
      OtherWrite(db, j, d, doc, write);
    case FinishTx(input, out, parse) =>
      var key := ReceiptKey(other, Finalize, input);
      OtherReceipted(db.receipts, key, out, key in db.receipts, j);
    case PurgeTx => OtherPurged(db, j, d, {doc}, true);
    case _ =>
  }

  lemma OtherWrite(db: Db, j: Id, d: Id, doc: Id, write: Write)
    requires doc != d
    ensures SliceOf(Written(db, doc, write), j, d) == SliceOf(db, j, d)
  {
    match write
    case NoRows =>
    case WriteChunks(rows) => OtherReplaced(db.chunks, doc, rows, d);
    case WritePages(rows) => OtherReplaced(db.pages, doc, rows, d);
    case WriteAssets(rows) => OtherReplaced(db.assets, doc, rows, d);
  }

  lemma OtherPurged(db: Db, j: Id, d: Id, ids: set<Id>, withCitations: bool)
    requires d !in ids && (j in db.jobs ==> db.jobs[j].doc == d)
    ensures SliceOf(Purge(db, ids, withCitations), j, d) == SliceOf(db, j, d)
  {
    hide OwnRows, DropRows, ReceiptsFor, DropReceipts;
    OtherDropped(db.chunks, ids, d);
    OtherDropped(db.pages, ids, d);
    OtherDropped(db.assets, ids, d);
    OtherReceiptsDropped(db.receipts, JobsOf(db.jobs, ids), j);
  }

  /** Equal but for the columns the worker updates, and not marked for deletion. */
  predicate SameDocument(was: Document, now: Document) {
    now == was.(status := now.status, pageCount := now.pageCount) && now.status != Deleting
  }

  lemma SiblingStep(db: Db, j: Id, d: Id, other: Id, tx: Tx)
    requires other != j && tx.StepTx?
    ensures var after := Perform(db, other, d, tx);
            after.jobs == db.jobs && ReceiptsFor(after.receipts, j) == ReceiptsFor(db.receipts, j)
  {
    hide ReceiptsFor, Replace, Receipted;
    OtherReceipted(db.receipts, ReceiptKey(other, tx.step, tx.input), tx.out, tx.cached, j);
  }

  lemma SiblingFinish(db: Db, j: Id, d: Id, other: Id, tx: Tx)
    requires other != j && tx.FinishTx?
    ensures var after := Perform(db, other, d, tx);
            Get(after.jobs, j) == Get(db.jobs, j) && ReceiptsFor(after.receipts, j) == ReceiptsFor(db.receipts, j)
  {
    hide ReceiptsFor, Receipted;
    var key := ReceiptKey(other, Finalize, tx.input);
    OtherReceipted(db.receipts, key, tx.out, key in db.receipts, j);
  }

  lemma SiblingStatus(db: Db, j: Id, d: Id, other: Id, tx: Tx)
    requires other != j && !tx.StepTx? && !tx.FinishTx? && !tx.PurgeTx?
    ensures var after := Perform(db, other, d, tx);
            Get(after.jobs, j) == Get(db.jobs, j) && after.receipts == db.receipts
  {
    hide ReceiptsFor, Receipted, Written, Purge, Cut;
  }

  /** Another job of the same document leaves the job row and the receipts alone ... */
  lemma SiblingJob(db: Db, j: Id, d: Id, other: Id, tx: Tx)
    requires other != j && tx != PurgeTx
    ensures var after := Perform(db, other, d, tx);
            Get(after.jobs, j) == Get(db.jobs, j) && ReceiptsFor(after.receipts, j) == ReceiptsFor(db.receipts, j)
  {
    hide ReceiptsFor, Perform;
    if tx.StepTx? {
      SiblingStep(db, j, d, other, tx);
    } else if tx.FinishTx? {
      SiblingFinish(db, j, d, other, tx);
    } else {
      SiblingStatus(db, j, d, other, tx);
    }
  }

  /** ... and the document row in place. */
  lemma SiblingDoc(db: Db, d: Id, other: Id, tx: Tx)
    requires d in db.docs && db.docs[d].status != Deleting && tx != PurgeTx && tx != MarkTx(Deleting)
    ensures var after := Perform(db, other, d, tx);
            d in after.docs && SameDocument(db.docs[d], after.docs[d])
  {
    hide Replace, Receipted;
  }

  lemma KbPurged(db: Db, j: Id, d: Id, kb: Id)
    requires d in db.docs && db.docs[d].kb != kb && (j in db.jobs ==> db.jobs[j].doc == d)
    ensures SliceOf(PurgeKb(db, kb), j, d) ==
            SliceOf(db, j, d).(chunks := DropKbChunks(OwnRows(db.chunks, d), kb))
  {
    var ids := DocsOf(db.docs, kb);
    assert d !in ids;
    OtherPurged(db, j, d, ids, false);
    var db1 := Purge(db, ids, false);
    assert OwnRows(DropKbChunks(db1.chunks, kb), d) == DropKbChunks(OwnRows(db1.chunks, d), kb);
    hide OwnRows, DropKbChunks;
  }
}
