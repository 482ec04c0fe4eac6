/** Whose rows a finished document shows: the last commit of each table decides. */
module Publication {
  import opened Wrappers
  import opened Tables
  import opened Deletion
  import opened Ingest
  import opened IngestSlice
  import opened IngestRefinement
  import opened CrashRefinement
  import opened CleanRun
  import DeletionWins
  import PageIndex

  /** The document's chunk rows, page rows, assets, and its parse result with the page count. */
  datatype Table = ChunkTable | PageTable | AssetTable | ResultTable

  /** The step that writes a table. */
  function WriterOf(t: Table): (n: nat)
    ensures 5 <= n < STEPS
  {
    match t
    case ChunkTable => 5
    case PageTable => 6
    case AssetTable => 7
    case ResultTable => 8
  }

  /** The transaction an event commits on behalf of a worker of the document, if it does. */
  ghost function CommitOf(cfg: Config, s: Sys, e: Event, d: Id): Tx {
    if e.Work? && e.job in s.workers && s.workers[e.job].doc == d then
      var tx := Next(cfg, s.db, e.job, d, s.workers[e.job].pc, e.choice).tx;
      if Fails(cfg.fk, s.db, e.job, d, tx) then NoTx else tx
    else NoTx
  }

  predicate Writes(tx: Tx, t: Table) {
    match t
    case ChunkTable => tx.StepTx? && tx.write.WriteChunks?
    case PageTable => tx.StepTx? && tx.write.WritePages?
    case AssetTable => tx.StepTx? && tx.write.WriteAssets?
    case ResultTable => tx.FinishTx?
  }

  /** The rows written are the ones the payloads `all` call for, chunk i with vector i. */
  ghost predicate CallsFor(cfg: Config, tx: Tx, doc0: Document, all: seq<Output>, t: Table)
    requires Writes(tx, t)
  {
    match t
    case ChunkTable =>
      && |ChunksOf(cfg, all)| == |VectorsOf(all)| == |tx.write.chunkRows|
      && forall i | 0 <= i < |tx.write.chunkRows| ::
           tx.write.chunkRows[i] ==
           ChunkRow(doc0.kb, doc0.kind, doc0.scheme, ChunksOf(cfg, all)[i], VectorsOf(all)[i])
    case PageTable => tx.write.pageRows == PageIndex.PageIndexOf(ChunksOf(cfg, all))
    case AssetTable => tx.write.assetRows == ImagesOf(all)
    case ResultTable =>
      tx.parse == ParseRow(SessionOf(all), MarkdownOf(all), ParsedOf(cfg, all), |ChunksOf(cfg, all)|, |ImagesOf(all)|)
  }

  /** The same through the rows the worker computes. */
  lemma CallsForIs(cfg: Config, tx: Tx, doc0: Document, all: seq<Output>, t: Table)
    requires Writes(tx, t)
    ensures CallsFor(cfg, tx, doc0, all, t) <==>
              match t
              case ChunkTable =>
                && |ChunksOf(cfg, all)| == |VectorsOf(all)|
                && tx.write.chunkRows == ChunkRows(doc0, ChunksOf(cfg, all), VectorsOf(all))
              case PageTable => tx.write.pageRows == PagesOf(cfg, all)
              case AssetTable => tx.write.assetRows == ImagesOf(all)
              case ResultTable => tx.parse == ParseRowOf(cfg, all)
  {
    hide ChunksOf, VectorsOf, ImagesOf, ParsedOf, MarkdownOf, SessionOf;
  }

  /** The table holds the rows the payloads call for. */
  ghost predicate Right(cfg: Config, sl: Slice, d: Id, doc0: Document, all: seq<Output>, t: Table) {
    match t
    case ChunkTable =>
      && |ChunksOf(cfg, all)| == |VectorsOf(all)|
      && sl.chunks == Numbered(d, ChunkRows(doc0, ChunksOf(cfg, all), VectorsOf(all)))
    case PageTable => sl.pages == Numbered(d, PagesOf(cfg, all))
    case AssetTable => sl.assets == Numbered(d, ImagesOf(all))
    case ResultTable =>
      && sl.parse == Some(ParseRowOf(cfg, all))
      && sl.doc.Some? && sl.doc.value.pageCount == Some(ParsedOf(cfg, all).pageCount)
  }

  lemma SettledIsRight(cfg: Config, sl: Slice, d: Id, doc0: Document, all: seq<Output>)
    requires sl.doc.Some? && |all| == STEPS
    ensures Settled(cfg, sl, d, doc0, all) <==> forall t :: Right(cfg, sl, d, doc0, all, t)
  {
    hide ChunksOf, PagesOf, ImagesOf, VectorsOf, ParsedOf, ParseRowOf, Numbered, ChunkRows;
    if forall t :: Right(cfg, sl, d, doc0, all, t) {
      assert Right(cfg, sl, d, doc0, all, ChunkTable) && Right(cfg, sl, d, doc0, all, PageTable);
      assert Right(cfg, sl, d, doc0, all, AssetTable) && Right(cfg, sl, d, doc0, all, ResultTable);
    }
  }

  lemma NumberedOnce<T>(d: Id, a: seq<T>, b: seq<T>)
    requires Numbered(d, a) == Numbered(d, b)
    ensures a == b
  {
    NumberedShorter(d, a, b);
    NumberedShorter(d, b, a);
    forall i | 0 <= i < |a|
      ensures a[i] == b[i]
    {
      assert RowKey(d, i) in Numbered(d, a);
      assert Numbered(d, a)[RowKey(d, i)] == a[i] && Numbered(d, b)[RowKey(d, i)] == b[i];
    }
  }

  lemma NumberedShorter<T>(d: Id, a: seq<T>, b: seq<T>)
    ensures |b| < |a| ==> Numbered(d, a) != Numbered(d, b)
  {
    if |b| < |a| {
      assert RowKey(d, |b|) in Numbered(d, a);
      assert RowKey(d, |b|) !in Numbered(d, b);
    }
  }

  // ---------- one commit ----------

  lemma StepTables(db: Db, j2: Id, d: Id, tx: Tx, j: Id)
    requires tx.StepTx?
    ensures var was, now := SliceOf(db, j, d), SliceOf(Perform(db, j2, d, tx), j, d);
            && now.chunks == (if tx.write.WriteChunks? then Numbered(d, tx.write.chunkRows) else was.chunks)
            && now.pages == (if tx.write.WritePages? then Numbered(d, tx.write.pageRows) else was.pages)
            && now.assets == (if tx.write.WriteAssets? then Numbered(d, tx.write.assetRows) else was.assets)
            && now.parse == was.parse && now.doc == was.doc
  {
    hide OwnRows, ReceiptsFor, Replace, Numbered, Receipted;
    OwnWrite(db, j, d, tx.write);
    DeletionWins.WrittenColumns(db, d, tx.write);
  }

  lemma OtherTables(db: Db, j2: Id, d: Id, tx: Tx, j: Id)
    requires !tx.StepTx? && !tx.PurgeTx? && d in db.docs && (tx.FinishTx? ==> j2 in db.jobs)
    ensures var was, now := SliceOf(db, j, d), SliceOf(Perform(db, j2, d, tx), j, d);
            && now.chunks == was.chunks && now.pages == was.pages && now.assets == was.assets
            && now.doc.Some? && was.doc.Some?
            && now.parse == (if tx.FinishTx? then Some(tx.parse) else was.parse)
            && now.doc.value.pageCount ==
               if tx.FinishTx? then Some(tx.parse.outline.pageCount) else was.doc.value.pageCount
  {
    hide OwnRows, ReceiptsFor, Receipted, Cut;
  }

  /** A commit makes a table right exactly if its rows are; other tables stay as they are. */
  lemma TxRight(cfg: Config, db: Db, j2: Id, d: Id, tx: Tx, j: Id, doc0: Document, all: seq<Output>, t: Table)
    requires !tx.PurgeTx? && d in db.docs && (tx.FinishTx? ==> j2 in db.jobs)
    ensures var was, now := SliceOf(db, j, d), SliceOf(Perform(db, j2, d, tx), j, d);
            && (Writes(tx, t) ==> (Right(cfg, now, d, doc0, all, t) <==> CallsFor(cfg, tx, doc0, all, t)))
            && (!Writes(tx, t) ==> (Right(cfg, now, d, doc0, all, t) <==> Right(cfg, was, d, doc0, all, t)))
  {
    hide SliceOf, Perform, ChunksOf, PagesOf, ImagesOf, VectorsOf, ParsedOf, ParseRowOf, Numbered, ChunkRows, CallsFor;
    if Writes(tx, t) {
      CallsForIs(cfg, tx, doc0, all, t);
    }
    if tx.StepTx? {
      StepTables(db, j2, d, tx, j);
      SameDocSlice(db, d, j);
      match t
      case ChunkTable =>
        if Writes(tx, t) && |ChunksOf(cfg, all)| == |VectorsOf(all)| {
          SameRows(d, tx.write.chunkRows, ChunkRows(doc0, ChunksOf(cfg, all), VectorsOf(all)));
        }
      case PageTable =>
        if Writes(tx, t) {
          SameRows(d, tx.write.pageRows, PagesOf(cfg, all));
        }
      case AssetTable =>
        if Writes(tx, t) {
          SameRows(d, tx.write.assetRows, ImagesOf(all));
        }
      case ResultTable =>
    } else {
      OtherTables(db, j2, d, tx, j);
      ParseOutlineIs(cfg, all);
    }
  }

  lemma SameRows<T>(d: Id, a: seq<T>, b: seq<T>)
    ensures Numbered(d, a) == Numbered(d, b) <==> a == b
  {
    if Numbered(d, a) == Numbered(d, b) {
      NumberedOnce(d, a, b);
    }
    hide Numbered;
  }

  lemma SameDocSlice(db: Db, d: Id, j: Id)
    requires d in db.docs
    ensures SliceOf(db, j, d).doc.Some?
  {
    hide OwnRows, ReceiptsFor;
  }

  // ---------- one event ----------

  /** The knowledge-base columns of the document's chunk rows, and of the snapshots its workers
      write them from, are the document's. */
  ghost predicate KbColumns(s: Sys, d: Id) {
    d in s.db.docs ==>
      && (forall k | k in s.db.chunks && k.doc == d :: s.db.chunks[k].kb == s.db.docs[d].kb)
      && (forall j2 | j2 in s.workers && s.workers[j2].doc == d && s.workers[j2].pc.Live? ::
            s.workers[j2].pc.snap.kb == s.db.docs[d].kb)
  }

  lemma FinishHasJob(cfg: Config, db: Db, j2: Id, d: Id, pc: Pc, choice: Output)
    ensures Next(cfg, db, j2, d, pc, choice).tx.FinishTx? ==> j2 in db.jobs && d in db.docs
  {
    hide KeyOf, WriteOf, Runner, ParseRowOf;
  }

  /** The tables of the document through one event that leaves it in place. */
  ghost predicate TableThrough(cfg: Config, s: Sys, e: Event, j: Id, d: Id, doc0: Document, all: seq<Output>, t: Table) {
    var was, now := SliceOf(s.db, j, d), SliceOf(Apply(cfg, s, e).db, j, d);
    var tx := CommitOf(cfg, s, e, d);
    if Writes(tx, t) then Right(cfg, now, d, doc0, all, t) <==> CallsFor(cfg, tx, doc0, all, t)
    else
      && (Right(cfg, was, d, doc0, all, t) ==> Right(cfg, now, d, doc0, all, t))
      && (KbColumns(s, d) ==> (Right(cfg, now, d, doc0, all, t) ==> Right(cfg, was, d, doc0, all, t)))
  }

  lemma EventTable(cfg: Config, s: Sys, e: Event, j: Id, d: Id, doc0: Document, outs: seq<Output>, all: seq<Output>,
                   t: Table)
    requires Healthy(cfg, s, j, d, doc0, outs) && d in Apply(cfg, s, e).db.docs
    ensures TableThrough(cfg, s, e, j, d, doc0, all, t)
  {
    hide Good, SliceOf, Right, CallsFor, WorkStep, Purge, PurgeKb, KbColumns, Writes, Next;
    GoodPlace(cfg, s, j, d, doc0, outs);
    NothingWrites(t);
    if Enabled(s, e) {
      match e
      case Work(j2, choice) => WorkTable(cfg, s, j2, choice, j, d, doc0, outs, all, t);
      case DeleteKb(kb) => KbTable(cfg, s, kb, j, d, doc0, all, t);
      case DeleteDocument(d2) =>
        DeletionWins.PurgeColumns(s.db, {d2}, true);
        OtherPurged(s.db, j, d, {d2}, true);
      case Retry(d2, j2) => RetryTable(cfg, s, d2, j2, j, d, doc0, all, t);
      case _ =>
    }
  }

  lemma NothingWrites(t: Table)
    ensures !Writes(NoTx, t)
  {}

  lemma RetryTable(cfg: Config, s: Sys, d2: Id, j2: Id, j: Id, d: Id, doc0: Document, all: seq<Output>, t: Table)
    requires Enabled(s, Retry(d2, j2)) && d in s.db.docs
    ensures var now := SliceOf(Apply(cfg, s, Retry(d2, j2)).db, j, d);
            Right(cfg, now, d, doc0, all, t) <==> Right(cfg, SliceOf(s.db, j, d), d, doc0, all, t)
  {
    hide OwnRows, ReceiptsFor, ChunksOf, PagesOf, ImagesOf, VectorsOf, ParsedOf, ParseRowOf, Numbered, ChunkRows;
  }

  lemma KbTable(cfg: Config, s: Sys, kb: Id, j: Id, d: Id, doc0: Document, all: seq<Output>, t: Table)
    requires j in s.db.jobs && s.db.jobs[j].doc == d && d in s.db.docs && d in PurgeKb(s.db, kb).docs
    requires SameDocument(doc0, s.db.docs[d])
    ensures var was, now := SliceOf(s.db, j, d), SliceOf(PurgeKb(s.db, kb), j, d);
            && (Right(cfg, was, d, doc0, all, t) ==> Right(cfg, now, d, doc0, all, t))
            && (KbColumns(s, d) ==> (Right(cfg, now, d, doc0, all, t) ==> Right(cfg, was, d, doc0, all, t)))
  {
    assert s.db.docs[d].kb != kb;
    KbPurged(s.db, j, d, kb);
    var rows := OwnRows(s.db.chunks, d);
    if KbColumns(s, d) {
      assert DropKbChunks(rows, kb) == rows;
    }
    if t.ChunkTable? && |ChunksOf(cfg, all)| == |VectorsOf(all)| {
      RowsOfKb(d, doc0, ChunkRows(doc0, ChunksOf(cfg, all), VectorsOf(all)), kb);
    }
    hide KbColumns, PurgeKb, DropKbChunks, OwnRows, ReceiptsFor, ChunksOf, PagesOf, ImagesOf, VectorsOf, ParsedOf,
        ParseRowOf, Numbered;
  }

  lemma RowsOfKb(d: Id, doc0: Document, rows: seq<ChunkRow>, kb: Id)
    requires doc0.kb != kb && forall r | r in rows :: r.kb == doc0.kb
    ensures DropKbChunks(Numbered(d, rows), kb) == Numbered(d, rows)
  {}

  lemma WorkTable(cfg: Config, s: Sys, j2: Id, choice: Output, j: Id, d: Id, doc0: Document, outs: seq<Output>,
                  all: seq<Output>, t: Table)
    requires Healthy(cfg, s, j, d, doc0, outs) && j2 in s.workers && d in WorkStep(cfg, s, j2, choice).db.docs
    ensures var was, now := SliceOf(s.db, j, d), SliceOf(WorkStep(cfg, s, j2, choice).db, j, d);
            var tx := CommitOf(cfg, s, Work(j2, choice), d);
            && (Writes(tx, t) ==> (Right(cfg, now, d, doc0, all, t) <==> CallsFor(cfg, tx, doc0, all, t)))
            && (!Writes(tx, t) ==> (Right(cfg, now, d, doc0, all, t) <==> Right(cfg, was, d, doc0, all, t)))
  {
    hide Good, SliceOf, Right, CallsFor, Perform, Next, Fails, Writes;
    GoodPlace(cfg, s, j, d, doc0, outs);
    HealthyWorker(cfg, s, j, d, doc0, outs);
    NothingWrites(t);
    var d2 := s.workers[j2].doc;
    var tx := Next(cfg, s.db, j2, d2, s.workers[j2].pc, choice).tx;
    if d2 != d {
      OtherTx(s.db, j, d, j2, d2, tx);
    } else if !Fails(cfg.fk, s.db, j2, d, tx) {
      FinishHasJob(cfg, s.db, j2, d, s.workers[j2].pc, choice);
      if tx.PurgeTx? {
        PurgeRemoves(s.db, j2, d);
        assert false;
      }
      TxRight(cfg, s.db, j2, d, tx, j, doc0, all, t);
    }
  }

  // ---------- the job's own commits ----------

  /** What a control point of the job commits. */
  lemma OwnWrites(cfg: Config, db: Db, j: Id, d: Id, pc: Pc, choice: Output, doc0: Document, outs: seq<Output>, t: Table)
    requires Good(cfg, SliceOf(db, j, d), pc, j, d, doc0, outs)
    ensures var tx := Next(cfg, db, j, d, pc, choice).tx;
            && (Writes(tx, t) ==>
                  && pc.Live? && |pc.mem| == WriterOf(t) && pc.mem < Extended(tx, outs)
                  && if t.ResultTable? then tx.parse == ParseRowOf(cfg, pc.mem)
                     else WriteOf(cfg, pc.snap, pc.mem) == Some(tx.write))
            && (|outs| <= WriterOf(t) < |Extended(tx, outs)| ==> Writes(tx, t))
            && outs <= Extended(tx, outs)
  {
    hide Good, SliceOf, Receipts, Possible, ParseRowOf, CancelledOrDeleted, Runner, Perform;
    GoodHere(cfg, db, pc, j, d, doc0, outs);
    LengthAtMost(cfg, d, outs);
    if pc.Live? && pc.at.Ran? {
      OwnStepWrites(cfg, db, j, d, pc, choice, doc0, outs, t);
    } else if pc.Live? && pc.at == Exec(Do) && |pc.mem| >= STEPS - 1 {
      NextFinish(cfg, db, j, d, pc, choice);
      hide Next, KeyOf;
    } else {
      NoTableTx(cfg, db, j, d, pc, choice);
      hide Next;
    }
  }

  lemma NoTableTx(cfg: Config, db: Db, j: Id, d: Id, pc: Pc, choice: Output)
    requires !(pc.Live? && (pc.at.Ran? || (pc.at == Exec(Do) && |pc.mem| >= STEPS - 1)))
    ensures var tx := Next(cfg, db, j, d, pc, choice).tx; !tx.StepTx? && !tx.FinishTx?
  {
    hide KeyOf, Runner, WriteOf, ParseRowOf, CancelledOrDeleted;
  }

  lemma OwnStepWrites(cfg: Config, db: Db, j: Id, d: Id, pc: Pc, choice: Output, doc0: Document, outs: seq<Output>,
                      t: Table)
    requires PcOk(cfg, d, pc, doc0, outs) && Possible(cfg, d, outs) && pc.Live? && pc.at.Ran?
    ensures var tx := Next(cfg, db, j, d, pc, choice).tx;
            && (Writes(tx, t) ==>
                  && !t.ResultTable? && |pc.mem| == WriterOf(t) && pc.mem < Extended(tx, outs)
                  && WriteOf(cfg, pc.snap, pc.mem) == Some(tx.write))
            && (|outs| <= WriterOf(t) < |Extended(tx, outs)| ==> Writes(tx, t))
            && outs <= Extended(tx, outs)
  {
    hide Possible, Runner, KeyOf, Next, WriteOf, Entry;
    WriteExists(cfg, pc, d, doc0, outs);
    NextCommit(cfg, db, j, d, pc, choice);
    WriteKind(cfg, pc.snap, pc.mem);
  }

  lemma WriteKind(cfg: Config, snap: Document, mem: seq<Output>)
    requires WriteOf(cfg, snap, mem).Some?
    ensures var write := WriteOf(cfg, snap, mem).value;
            && (write.WriteChunks? <==> |mem| == 5) && (write.WritePages? <==> |mem| == 6)
            && (write.WriteAssets? <==> |mem| == 7)
  {
    hide ChunksOf, PagesOf, ImagesOf, ChunkRows;
  }

  /** A job commits the rows its own payloads call for. */
  lemma OwnCallsFor(cfg: Config, s: Sys, choice: Output, j: Id, d: Id, doc0: Document, outs: seq<Output>,
                    all: seq<Output>, t: Table)
    requires Healthy(cfg, s, j, d, doc0, outs) && Grown(cfg, s, Work(j, choice), j, outs) <= all
    ensures var tx := CommitOf(cfg, s, Work(j, choice), d); Writes(tx, t) ==> CallsFor(cfg, tx, doc0, all, t)
    ensures |outs| <= WriterOf(t) < |Grown(cfg, s, Work(j, choice), j, outs)| ==>
              Writes(CommitOf(cfg, s, Work(j, choice), d), t)
  {
    hide Good, SliceOf, Next, Fails, CallsFor, Extended, Perform;
    NothingWrites(t);
    OwnWrites(cfg, s.db, j, d, s.workers[j].pc, choice, doc0, outs, t);
    var tx := Next(cfg, s.db, j, d, s.workers[j].pc, choice).tx;
    if !Fails(cfg.fk, s.db, j, d, tx) && Writes(tx, t) {
      HealthyPc(cfg, s, j, d, doc0, outs);
      PrefixOf(s.workers[j].pc.mem, Extended(tx, outs), all);
      MemCallsFor(cfg, tx, s.workers[j].pc.snap, s.workers[j].pc.mem, doc0, all, t);
    }
  }

  lemma HealthyPc(cfg: Config, s: Sys, j: Id, d: Id, doc0: Document, outs: seq<Output>)
    requires Healthy(cfg, s, j, d, doc0, outs)
    ensures PcOk(cfg, d, s.workers[j].pc, doc0, outs)
    ensures s.workers[j].pc.Live? ==> SameDocument(doc0, s.workers[j].pc.snap)
  {
    hide Receipts, Possible;
  }

  lemma PrefixOf(mem: seq<Output>, longer: seq<Output>, all: seq<Output>)
    requires mem < longer && longer <= all
    ensures mem < all
  {}

  lemma MemCallsFor(cfg: Config, tx: Tx, snap: Document, mem: seq<Output>, doc0: Document, all: seq<Output>, t: Table)
    requires mem < all && |mem| == WriterOf(t) && SameDocument(doc0, snap) && Writes(tx, t)
    requires if t.ResultTable? then tx.parse == ParseRowOf(cfg, mem) else WriteOf(cfg, snap, mem) == Some(tx.write)
    ensures CallsFor(cfg, tx, doc0, all, t)
  {
    hide WriteOf, ChunksOf, PagesOf, ImagesOf, VectorsOf, ParseRowOf, ChunkRows, CallsFor;
    CallsForIs(cfg, tx, doc0, all, t);
    if t.ResultTable? {
      TablesAgree(cfg, mem, all);
    } else {
      WriteMatches(cfg, snap, doc0, mem, all);
    }
  }

  // ---------- whole runs ----------

  /** The last commit of the table in the run was the job's own, or another worker's of the very
      rows the job's payloads call for. */
  ghost predicate LastIsRight(cfg: Config, s0: Sys, events: seq<Event>, j: Id, d: Id, doc0: Document, all: seq<Output>,
                              t: Table) {
    events != [] &&
    var n := |events| - 1;
    var tx := CommitOf(cfg, Run(cfg, s0, events[..n]), events[n], d);
    if Writes(tx, t) then events[n].job == j || CallsFor(cfg, tx, doc0, all, t)
    else LastIsRight(cfg, s0, events[..n], j, d, doc0, all, t)
  }

  lemma LastIs(cfg: Config, s0: Sys, events: seq<Event>, j: Id, d: Id, doc0: Document, all: seq<Output>, t: Table)
    requires events != []
    ensures var n := |events| - 1;
            var e, tx := events[n], CommitOf(cfg, Run(cfg, s0, events[..n]), events[n], d);
            && (Writes(tx, t) ==> e.Work?)
            && (LastIsRight(cfg, s0, events, j, d, doc0, all, t) <==>
                  if Writes(tx, t) then e.job == j || CallsFor(cfg, tx, doc0, all, t)
                  else LastIsRight(cfg, s0, events[..n], j, d, doc0, all, t))
  {
    hide CallsFor, Next, Fails, Run;
    NothingWrites(t);
  }

  /** Once the job has committed a table, the table holds its rows exactly if the last commit of
      the table was right. */
  ghost predicate TableFollows(cfg: Config, s0: Sys, events: seq<Event>, j: Id, d: Id, doc0: Document, all: seq<Output>,
                               t: Table) {
    var s := Run(cfg, s0, events);
    var right := Right(cfg, SliceOf(s.db, j, d), d, doc0, all, t);
    WriterOf(t) < |Committed(cfg, s0, events, j)| ==>
      && (LastIsRight(cfg, s0, events, j, d, doc0, all, t) ==> right)
      && (KbColumns(s0, d) ==> (right ==> LastIsRight(cfg, s0, events, j, d, doc0, all, t)))
      && (Undisturbed(cfg, s0, events, j, d) ==> LastIsRight(cfg, s0, events, j, d, doc0, all, t))
  }

  lemma CommittedSnoc(cfg: Config, s0: Sys, events: seq<Event>, j: Id)
    ensures Committed(cfg, s0, [], j) == []
    ensures events != [] ==>
              var n := |events| - 1;
              Committed(cfg, s0, events, j) ==
              Grown(cfg, Run(cfg, s0, events[..n]), events[n], j, Committed(cfg, s0, events[..n], j))
  {
    hide Grown, Run;
  }

  lemma {:induction false} RunTables(cfg: Config, s0: Sys, events: seq<Event>, j: Id, d: Id, all: seq<Output>, t: Table)
    requires Submitted(s0, j, d) && Committed(cfg, s0, events, j) <= all && d in Run(cfg, s0, events).db.docs
    ensures TableFollows(cfg, s0, events, j, d, SubmittedDocument(s0, j, d), all, t)
  {
    hide Run, Committed, LastIsRight, Right, KbColumns, Undisturbed, Submitted, Healthy, Settled, SliceOf, Unaccompanied;
    CommittedSnoc(cfg, s0, events, j);
    if events != [] {
      var n := |events| - 1;
      var before, e := Run(cfg, s0, events[..n]), events[n];
      RunSnocIs(cfg, s0, events);
      if d !in before.db.docs {
        DocGone(cfg, before, e, d);
        assert false;
      }
      var outs := RunKeeps(cfg, s0, events[..n], j, d);
      SubmittedDocIs(s0, j, d);
      var longer := EventStep(cfg, before, e, j, d, SubmittedDocument(s0, j, d), outs);
      GrownPrefix(cfg, before, Apply(cfg, before, e), j, d, SubmittedDocument(s0, j, d), outs, longer);
      RunTables(cfg, s0, events[..n], j, d, all, t);
      RunTableStep(cfg, s0, events, j, d, SubmittedDocument(s0, j, d), outs, all, t);
    }
  }

  lemma GrownPrefix(cfg: Config, s: Sys, next: Sys, j: Id, d: Id, doc0: Document, outs: seq<Output>, longer: seq<Output>)
    requires Onward(cfg, next, j, d, doc0, outs, longer)
    ensures outs <= longer
  {
    hide Healthy;
  }

  lemma SubmittedDocIs(s: Sys, j: Id, d: Id)
    requires Submitted(s, j, d)
    ensures d in s.db.docs && SubmittedDocument(s, j, d) == s.db.docs[d]
  {}

  lemma RunSnocIs(cfg: Config, s0: Sys, events: seq<Event>)
    requires events != []
    ensures Run(cfg, s0, events) == Apply(cfg, Run(cfg, s0, events[..|events| - 1]), events[|events| - 1])
  {
    hide Apply;
  }

  lemma RunTableStep(cfg: Config, s0: Sys, events: seq<Event>, j: Id, d: Id, doc0: Document, outs: seq<Output>,
                     all: seq<Output>, t: Table)
    requires events != []
    requires var n := |events| - 1;
             var before := Run(cfg, s0, events[..n]);
             && Healthy(cfg, before, j, d, doc0, outs) && outs == Committed(cfg, s0, events[..n], j)
             && TableFollows(cfg, s0, events[..n], j, d, doc0, all, t)
             && Committed(cfg, s0, events, j) == Grown(cfg, before, events[n], j, outs) <= all
             && Run(cfg, s0, events) == Apply(cfg, before, events[n])
    requires d in Run(cfg, s0, events).db.docs
    ensures TableFollows(cfg, s0, events, j, d, doc0, all, t)
  {
    hide Run, Committed, LastIsRight, Right, KbColumns, Undisturbed, Healthy, SliceOf, CallsFor, Grown, CommitOf,
        Writes, Apply, SiblingMoves, Indexed;
    var n := |events| - 1;
    var before, e := Run(cfg, s0, events[..n]), events[n];
    EventTable(cfg, before, e, j, d, doc0, outs, all, t);
    LastIs(cfg, s0, events, j, d, doc0, all, t);
    KbColumnsRun(cfg, s0, events[..n], d);
    UndisturbedInit(cfg, s0, events, j, d);
    LongIsIndexed(cfg, before, j, d, doc0, outs);
    if e.Work? && e.job == j {
      OwnCallsFor(cfg, before, e.choice, j, d, doc0, outs, all, t);
    } else {
      NotGrown(cfg, before, e, j, d, outs);
      SiblingCommits(cfg, before, e, j, d, t);
    }
  }

  lemma NotGrown(cfg: Config, s: Sys, e: Event, j: Id, d: Id, outs: seq<Output>)
    requires !(e.Work? && e.job == j)
    ensures Grown(cfg, s, e, j, outs) == outs
  {}

  lemma SiblingCommits(cfg: Config, s: Sys, e: Event, j: Id, d: Id, t: Table)
    requires !(e.Work? && e.job == j)
    ensures Writes(CommitOf(cfg, s, e, d), t) ==> SiblingMoves(s, e, j, d)
  {
    hide Next, Fails;
    NothingWrites(t);
  }

  // ---------- the knowledge-base columns ----------

  lemma {:induction false} KbColumnsRun(cfg: Config, s0: Sys, events: seq<Event>, d: Id)
    ensures KbColumns(s0, d) ==> KbColumns(Run(cfg, s0, events), d)
  {
    hide KbColumns, Apply;
    if events != [] {
      var n := |events| - 1;
      KbColumnsRun(cfg, s0, events[..n], d);
      if KbColumns(Run(cfg, s0, events[..n]), d) {
        KbColumnsEvent(cfg, Run(cfg, s0, events[..n]), events[n], d);
      }
    }
  }

  lemma KbColumnsEvent(cfg: Config, s: Sys, e: Event, d: Id)
    requires KbColumns(s, d)
    ensures KbColumns(Apply(cfg, s, e), d)
  {
    hide KbColumns, WorkStep, Purge, PurgeKb, FewerRows, At;
    if d !in s.db.docs {
      DocGone(cfg, s, e, d);
      GoneColumns(Apply(cfg, s, e), d);
    } else if Enabled(s, e) {
      match e
      case Work(j2, choice) => KbColumnsWork(cfg, s, j2, choice, d);
      case DeleteKb(kb) =>
        KbPurgedColumns(s.db, kb, d);
        FewerColumns(s, PurgeKb(s.db, kb), d);
      case DeleteDocument(d2) =>
        PurgedColumns(s.db, {d2}, true, d);
        FewerColumns(s, Purge(s.db, {d2}, true), d);
      case Retry(d2, j2) => RetriedColumns(cfg, s, d2, j2, d);
      case Deliver(j2) => RestColumns(s, j2, Start, d);
      case Raise(j2, error) => RestColumns(s, j2, Failing(error), d);
      case Crash(j2) => RestColumns(s, j2, Idle, d);
      case SkipLocked(j2) => RestColumns(s, j2, if s.workers[j2].doc in s.db.docs then Ended else Cancelling, d);
    }
  }

  lemma GoneColumns(s: Sys, d: Id)
    requires d !in s.db.docs
    ensures KbColumns(s, d)
  {}

  lemma FewerColumns(s: Sys, db: Db, d: Id)
    requires KbColumns(s, d) && FewerRows(s.db, db, d)
    ensures KbColumns(s.(db := db), d)
  {}

  lemma RetriedColumns(cfg: Config, s: Sys, d2: Id, j2: Id, d: Id)
    requires KbColumns(s, d) && d in s.db.docs && Enabled(s, Retry(d2, j2))
    ensures KbColumns(Apply(cfg, s, Retry(d2, j2)), d)
  {}

  lemma RestColumns(s: Sys, j2: Id, pc: Pc, d: Id)
    requires KbColumns(s, d) && j2 in s.workers && !pc.Live?
    ensures KbColumns(At(s, j2, pc), d)
  {}

  /** Rows and the document's own knowledge base at most disappear. */
  ghost predicate FewerRows(was: Db, now: Db, d: Id) {
    && (d in now.docs ==> d in was.docs && now.docs[d].kb == was.docs[d].kb)
    && (forall k | k in now.chunks && k.doc == d :: k in was.chunks && now.chunks[k] == was.chunks[k])
  }

  lemma PurgedColumns(db: Db, ids: set<Id>, withCitations: bool, d: Id)
    ensures FewerRows(db, Purge(db, ids, withCitations), d)
  {
    hide DropJobs, DropReceipts, DropParses, DropCitations, JobsOf;
  }

  lemma KbPurgedColumns(db: Db, kb: Id, d: Id)
    ensures FewerRows(db, PurgeKb(db, kb), d)
  {
    hide DropJobs, DropReceipts, DropParses, DropCitations, JobsOf, DropKbCitations, UnlinkSessions, DropPermissions;
  }

  lemma KbColumnsWork(cfg: Config, s: Sys, j2: Id, choice: Output, d: Id)
    requires KbColumns(s, d) && d in s.db.docs && j2 in s.workers
    ensures KbColumns(WorkStep(cfg, s, j2, choice), d)
  {
    hide Next, Perform, Fails;
    var d2 := s.workers[j2].doc;
    var tx := Next(cfg, s.db, j2, d2, s.workers[j2].pc, choice).tx;
    NextSnap(cfg, s.db, j2, d2, s.workers[j2].pc, choice);
    TxColumns(s.db, j2, d2, tx, d);
  }

  /** A worker's snapshot is the document as loaded, and its chunk rows carry the snapshot's
      knowledge base. */
  lemma NextSnap(cfg: Config, db: Db, j2: Id, d2: Id, pc: Pc, choice: Output)
    ensures var next := Next(cfg, db, j2, d2, pc, choice);
            && (next.then_.Live? ==>
                  if pc.Live? then next.then_.snap == pc.snap else d2 in db.docs && next.then_.snap == db.docs[d2])
            && (!next.else_.Live? || next.else_ == next.then_)
    ensures var tx := Next(cfg, db, j2, d2, pc, choice).tx;
            tx.StepTx? && tx.write.WriteChunks? ==> pc.Live? && forall r | r in tx.write.chunkRows :: r.kb == pc.snap.kb
  {
    hide KeyOf, Runner, ParseRowOf, ChunksOf, PagesOf, ImagesOf, VectorsOf, CancelledOrDeleted;
  }

  lemma TxColumns(db: Db, j2: Id, d2: Id, tx: Tx, d: Id)
    requires d in db.docs
    ensures var now := Perform(db, j2, d2, tx);
            && (d in now.docs ==> now.docs[d].kb == db.docs[d].kb)
            && (forall k | k in now.chunks && k.doc == d ::
                  || (k in db.chunks && now.chunks[k] == db.chunks[k])
                  || (d2 == d && tx.StepTx? && tx.write.WriteChunks? && now.chunks[k] in tx.write.chunkRows))
  {
    hide Perform;
    if tx.PurgeTx? {
      PurgedColumns(db, {d2}, true, d);
      PurgeIs(db, j2, d2);
    } else if tx.StepTx? {
      DeletionWins.WrittenColumns(db, d2, tx.write);
      StepColumns(db, j2, d2, tx, d);
    } else {
      StatusColumns(db, j2, d2, tx, d);
    }
  }

  lemma PurgeIs(db: Db, j2: Id, d2: Id)
    ensures Perform(db, j2, d2, PurgeTx) == Purge(db, {d2}, true)
  {}

  lemma StepColumns(db: Db, j2: Id, d2: Id, tx: Tx, d: Id)
    requires tx.StepTx?
    ensures var now := Perform(db, j2, d2, tx);
            && now.docs == Written(db, d2, tx.write).docs
            && (forall k | k in now.chunks && k.doc == d ::
                  || (k in db.chunks && now.chunks[k] == db.chunks[k])
                  || (d2 == d && tx.write.WriteChunks? && now.chunks[k] in tx.write.chunkRows))
  {
    hide Receipted;
  }

  lemma StatusColumns(db: Db, j2: Id, d2: Id, tx: Tx, d: Id)
    requires d in db.docs && !tx.StepTx? && !tx.PurgeTx?
    ensures var now := Perform(db, j2, d2, tx);
            now.chunks == db.chunks && d in now.docs && now.docs[d].kb == db.docs[d].kb
  {
    hide Receipted, Cut;
  }

  // ---------- every success is the clean one, exactly if the last commits are right ----------

  ghost predicate AllLastRight(cfg: Config, s0: Sys, events: seq<Event>, j: Id, d: Id, doc0: Document, all: seq<Output>) {
    forall t :: LastIsRight(cfg, s0, events, j, d, doc0, all, t)
  }

  /** What a run leaves of a job that has committed all nine payloads. */
  lemma TablesExactly(cfg: Config, s0: Sys, events: seq<Event>, j: Id, d: Id)
    requires Submitted(s0, j, d) && d in Run(cfg, s0, events).db.docs && |Committed(cfg, s0, events, j)| == STEPS
    ensures var s, doc0, outs := Run(cfg, s0, events), SubmittedDocument(s0, j, d), Committed(cfg, s0, events, j);
            && (AllLastRight(cfg, s0, events, j, d, doc0, outs) ==> Settled(cfg, SliceOf(s.db, j, d), d, doc0, outs))
            && (KbColumns(s0, d) && Settled(cfg, SliceOf(s.db, j, d), d, doc0, outs) ==>
                  AllLastRight(cfg, s0, events, j, d, doc0, outs))
            && (Undisturbed(cfg, s0, events, j, d) ==> AllLastRight(cfg, s0, events, j, d, doc0, outs))
  {
    hide Run, Committed, LastIsRight, Right, KbColumns, Undisturbed, Submitted, SliceOf, Settled;
    var s, doc0, outs := Run(cfg, s0, events), SubmittedDocument(s0, j, d), Committed(cfg, s0, events, j);
    forall t
      ensures var last, right :=
                LastIsRight(cfg, s0, events, j, d, doc0, outs, t), Right(cfg, SliceOf(s.db, j, d), d, doc0, outs, t);
              && (last ==> right) && (KbColumns(s0, d) && right ==> last)
              && (Undisturbed(cfg, s0, events, j, d) ==> last)
    {
      RunTables(cfg, s0, events, j, d, outs, t);
    }
    SameDocSlice(s.db, d, j);
    SettledIsRight(cfg, SliceOf(s.db, j, d), d, doc0, outs);
  }

  /** Equal to what settled tables publish is settled. */
  lemma PublishedSettled(cfg: Config, was: Db, now: Db, j: Id, d: Id, doc0: Document, outs: seq<Output>)
    requires Settled(cfg, SliceOf(was, j, d), d, doc0, outs) && Published(was, j, d) == Published(now, j, d)
    ensures Settled(cfg, SliceOf(now, j, d), d, doc0, outs)
  {
    hide OwnRows, ReceiptsFor, ChunksOf, PagesOf, VectorsOf, ImagesOf, ParsedOf, ParseRowOf, ChunkRows, Numbered;
  }

  /** Crash refinement: a run may kill, fail and redeliver the attempts of a job, retry the
      document, let other workers write its tables and delete others at will.  Once the job has
      all its receipts, these and all rows of the document are those of one uninterrupted attempt
      in which the OCR service and the embedding model answered what the receipts say, exactly if
      the last commit of each of the four tables was the job's own or of the same rows.  Without
      moves of other workers after the job's first table write that is always so. */
  lemma SuccessIsClean(cfg: Config, s0: Sys, events: seq<Event>, j: Id, d: Id)
    requires Submitted(s0, j, d) && (cfg.fk ==> s0.db.docs[d].kb in s0.db.kbs)
    ensures var s, doc0, outs := Run(cfg, s0, events), SubmittedDocument(s0, j, d), Committed(cfg, s0, events, j);
            var clean := Run(cfg, s0, CleanEvents(j, outs));
            d in s.db.docs ==>
              && j in s.db.jobs && (s.db.jobs[j].status == Succeeded ==> |outs| == STEPS)
              && (s.db.docs[d].status == Ready && Unaccompanied(cfg, s0, events, j, d) ==> |outs| == STEPS)
              && Possible(cfg, d, outs) && IsPrefix(cfg, s.db.receipts, j, d, doc0.sha256, outs)
              && (|outs| == STEPS ==>
                    && j in clean.db.jobs && clean.db.jobs[j].status == Succeeded
                    && d in clean.db.docs && clean.db.docs[d].status == Ready
                    && Settled(cfg, SliceOf(clean.db, j, d), d, doc0, outs)
                    && (AllLastRight(cfg, s0, events, j, d, doc0, outs) ==>
                          Published(s.db, j, d) == Published(clean.db, j, d))
                    && (KbColumns(s0, d) && Published(s.db, j, d) == Published(clean.db, j, d) ==>
                          AllLastRight(cfg, s0, events, j, d, doc0, outs))
                    && (Undisturbed(cfg, s0, events, j, d) ==> AllLastRight(cfg, s0, events, j, d, doc0, outs)))
  {
    hide Run, Committed, KbColumns, Undisturbed, Unaccompanied, Submitted, SliceOf, Settled, AllLastRight, Healthy,
        Possible, IsPrefix, Published, CleanEvents, Through, Receipts, SubmittedDocument;
    var s, doc0, outs := Run(cfg, s0, events), SubmittedDocument(s0, j, d), Committed(cfg, s0, events, j);
    if d in s.db.docs {
      var outs' := RunKeeps(cfg, s0, events, j, d);
      SubmittedDocIs(s0, j, d);
      HealthyFacts(cfg, s, j, d, doc0, outs);
      HealthyPrefix(cfg, s, j, d, doc0, outs);
      LengthAtMost(cfg, d, outs);
      if |outs| == STEPS {
        CleanAndRight(cfg, s0, events, j, d);
      }
    }
  }

  lemma CleanAndRight(cfg: Config, s0: Sys, events: seq<Event>, j: Id, d: Id)
    requires Submitted(s0, j, d) && (cfg.fk ==> s0.db.docs[d].kb in s0.db.kbs)
    requires var s, doc0, outs := Run(cfg, s0, events), SubmittedDocument(s0, j, d), Committed(cfg, s0, events, j);
             d in s.db.docs && |outs| == STEPS && Healthy(cfg, s, j, d, doc0, outs)
    ensures var s, doc0, outs := Run(cfg, s0, events), SubmittedDocument(s0, j, d), Committed(cfg, s0, events, j);
            var clean := Run(cfg, s0, CleanEvents(j, outs));
            && j in clean.db.jobs && clean.db.jobs[j].status == Succeeded
            && d in clean.db.docs && clean.db.docs[d].status == Ready
            && Settled(cfg, SliceOf(clean.db, j, d), d, doc0, outs)
            && (AllLastRight(cfg, s0, events, j, d, doc0, outs) ==> Published(s.db, j, d) == Published(clean.db, j, d))
            && (KbColumns(s0, d) && Published(s.db, j, d) == Published(clean.db, j, d) ==>
                  AllLastRight(cfg, s0, events, j, d, doc0, outs))
            && (Undisturbed(cfg, s0, events, j, d) ==> AllLastRight(cfg, s0, events, j, d, doc0, outs))
  {
    hide Run, Committed, KbColumns, Undisturbed, Submitted, SliceOf, Settled, AllLastRight, Healthy, Possible, Published,
        CleanEvents, Through, Receipts, SubmittedDocument;
    var s, doc0, outs := Run(cfg, s0, events), SubmittedDocument(s0, j, d), Committed(cfg, s0, events, j);
    var clean := Run(cfg, s0, CleanEvents(j, outs));
    SubmittedDocIs(s0, j, d);
    HealthyFacts(cfg, s, j, d, doc0, outs);
    CleanSucceeds(cfg, s0, j, d, outs);
    Done(cfg, clean, j, d, doc0, outs, 0, SnapOf(s0, d));
    HealthyFacts(cfg, clean, j, d, doc0, outs);
    TablesExactly(cfg, s0, events, j, d);
    if Published(s.db, j, d) == Published(clean.db, j, d) {
      PublishedSettled(cfg, clean.db, s.db, j, d, doc0, outs);
    }
    if Settled(cfg, SliceOf(s.db, j, d), d, doc0, outs) {
      SettledDetermines(cfg, s.db, clean.db, j, d, doc0, outs);
    }
  }

  // ---------- the event that breaks them ----------

  /** Another worker of the document is about to commit rows of a table that are not the ones the
      job's payloads call for. */
  ghost predicate Overwrites(cfg: Config, s: Sys, e: Event, j: Id, d: Id, doc0: Document, all: seq<Output>) {
    SiblingMoves(s, e, j, d) &&
    exists t :: Writes(CommitOf(cfg, s, e, d), t) && !CallsFor(cfg, CommitOf(cfg, s, e, d), doc0, all, t)
  }

  /** In every run, once a job is through and its tables are right, an event that leaves the
      document in place makes one of them wrong exactly if it is such a commit. */
  lemma BreaksExactly(cfg: Config, s0: Sys, events: seq<Event>, e: Event, j: Id, d: Id)
    requires Submitted(s0, j, d)
    requires var s, outs := Run(cfg, s0, events), Committed(cfg, s0, events, j);
             d in s.db.docs && |outs| == STEPS && Settled(cfg, SliceOf(s.db, j, d), d, SubmittedDocument(s0, j, d), outs)
    requires d in Apply(cfg, Run(cfg, s0, events), e).db.docs
    ensures var s, doc0, outs := Run(cfg, s0, events), SubmittedDocument(s0, j, d), Committed(cfg, s0, events, j);
            !Settled(cfg, SliceOf(Apply(cfg, s, e).db, j, d), d, doc0, outs) <==> Overwrites(cfg, s, e, j, d, doc0, outs)
  {
    hide Run, Committed, Right, Submitted, SliceOf, Settled, Healthy, Apply, CommitOf, CallsFor, Writes, SiblingMoves,
        Undisturbed, Unaccompanied, KbColumns, SubmittedDocument;
    var s, doc0, outs := Run(cfg, s0, events), SubmittedDocument(s0, j, d), Committed(cfg, s0, events, j);
    var outs' := RunKeeps(cfg, s0, events, j, d);
    SubmittedDocIs(s0, j, d);
    SameDocSlice(s.db, d, j);
    SameDocSlice(Apply(cfg, s, e).db, d, j);
    SettledIsRight(cfg, SliceOf(s.db, j, d), d, doc0, outs);
    SettledIsRight(cfg, SliceOf(Apply(cfg, s, e).db, j, d), d, doc0, outs);
    forall t
      ensures Right(cfg, SliceOf(Apply(cfg, s, e).db, j, d), d, doc0, outs, t) <==>
              (Writes(CommitOf(cfg, s, e, d), t) ==> CallsFor(cfg, CommitOf(cfg, s, e, d), doc0, outs, t))
    {
      EventTable(cfg, s, e, j, d, doc0, outs, outs, t);
    }
    forall t | Writes(CommitOf(cfg, s, e, d), t) && !CallsFor(cfg, CommitOf(cfg, s, e, d), doc0, outs, t)
      ensures SiblingMoves(s, e, j, d)
    {
      if e.Work? && e.job == j {
        FullGrown(cfg, s, e.choice, j, d, doc0, outs);
        OwnCallsFor(cfg, s, e.choice, j, d, doc0, outs, outs, t);
      } else {
        SiblingCommits(cfg, s, e, j, d, t);
      }
    }
  }

  lemma FullGrown(cfg: Config, s: Sys, choice: Output, j: Id, d: Id, doc0: Document, outs: seq<Output>)
    requires Healthy(cfg, s, j, d, doc0, outs) && |outs| == STEPS
    ensures Grown(cfg, s, Work(j, choice), j, outs) == outs
  {
    hide Good, Next, Fails, Extended, SliceOf, Onward, TablesOnward, ReadyOnward;
    var longer := OwnWork(cfg, s, j, choice, d, doc0, outs);
    FullIsFull(cfg, s, choice, j, d, doc0, outs);
  }

  lemma FullIsFull(cfg: Config, s: Sys, choice: Output, j: Id, d: Id, doc0: Document, outs: seq<Output>)
    requires Healthy(cfg, s, j, d, doc0, outs) && |outs| == STEPS
    ensures Extended(Next(cfg, s.db, j, d, s.workers[j].pc, choice).tx, outs) == outs
  {
    hide SliceOf, KeyOf, Runner, WriteOf, ParseRowOf, CancelledOrDeleted, Receipts, Possible;
  }
}
