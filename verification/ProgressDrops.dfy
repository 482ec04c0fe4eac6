/** Exactly when the percentage falls, and runs in which it does. */
module ProgressDrops {
  import opened Wrappers
  import opened Tables
  import opened Deletion
  import opened Ingest
  import opened IngestSlice
  import opened IngestRefinement
  import opened CrashRefinement
  import opened Progress
  import opened ProgressRuns
  import CleanRun
  import DeletionWins

  /** What an observer can check before the event: a worker of the document is about to mark its
      job running, to mark the document's next phase or to dead-letter its job, or the document is
      about to be retried, while its status shows more than that and more than the receipts are
      worth, or while 100 is shown. */
  ghost predicate Drops(s: Sys, e: Event, j: Id, d: Id)
    requires j in s.db.jobs && d in s.db.docs
  {
    var doc, job, done := s.db.docs[d].status, s.db.jobs[j].status, Done(s.db, j);
    match e
    case Work(j2, _) =>
      && j2 in s.workers && s.workers[j2].doc == d
      && var pc := s.workers[j2].pc;
         if pc.Live? && pc.at == Exec(Begin) then j2 in s.db.jobs && FallsTo(Ocr, doc, job, done)
         else if pc.Live? && pc.at == Exec(Mark) then FallsTo(MarkStatus(|pc.mem|), doc, job, done)
         else
           && pc.DeadLettering? && j2 in s.db.jobs
           && (OnFloor(doc, job, done) || (ShownOf(s.db, j, d) == 100 && (j2 == j || job != Succeeded)))
    case Retry(d2, _) => d2 == d && Enabled(s, e) && FallsTo(Pending, doc, job, done)
    case _ => false
  }

  /** The percentage depends on two status columns and the job's receipts. */
  lemma SameShown(was: Db, now: Db, j: Id, d: Id)
    requires j in was.jobs && d in was.docs && d in now.docs
    requires Get(was.docs, d) == Get(now.docs, d) && Get(was.jobs, j) == Get(now.jobs, j)
    requires ReceiptsFor(was.receipts, j) == ReceiptsFor(now.receipts, j)
    ensures j in now.jobs && ShownOf(now, j, d) == ShownOf(was, j, d)
  {
    SameDone(was.receipts, now.receipts, j);
    hide ReceiptsFor, Shown;
  }

  lemma SameDone(was: map<ReceiptKey, Output>, now: map<ReceiptKey, Output>, j: Id)
    requires ReceiptsFor(was, j) == ReceiptsFor(now, j)
    ensures (set k | k in was && k.job == j :: k.step) == (set k | k in now && k.job == j :: k.step)
  {
    assert forall k | k in was && k.job == j :: k in ReceiptsFor(was, j);
    assert forall k | k in now && k.job == j :: k in ReceiptsFor(now, j);
  }

  lemma SliceShown(was: Db, now: Db, j: Id, d: Id)
    requires j in was.jobs && d in was.docs && d in now.docs
    requires SliceOf(now, j, d) == SliceOf(was, j, d).(chunks := SliceOf(now, j, d).chunks)
    ensures j in now.jobs && ShownOf(now, j, d) == ShownOf(was, j, d)
  {
    hide OwnRows, ReceiptsFor, Shown, Done;
    SameShown(was, now, j, d);
  }

  // ---------- the events of others ----------

  /** An event that is neither a move of a worker of the document nor a retry of it does not
      change the percentage. */
  lemma OthersShown(cfg: Config, s: Sys, e: Event, j: Id, d: Id, doc0: Document, outs: seq<Output>)
    requires Healthy(cfg, s, j, d, doc0, outs) && !Retries(e, d)
    requires !(e.Work? && e.job in s.workers && s.workers[e.job].doc == d) && d in Apply(cfg, s, e).db.docs
    ensures j in s.db.jobs && d in s.db.docs && j in Apply(cfg, s, e).db.jobs
    ensures ShownOf(Apply(cfg, s, e).db, j, d) == ShownOf(s.db, j, d)
  {
    GoodPlace(cfg, s, j, d, doc0, outs);
    HealthyWorker(cfg, s, j, d, doc0, outs);
    hide Healthy, Shown, Done, ShownOf, SliceOf;
    if Enabled(s, e) {
      match e
      case Work(j2, choice) => OtherWorkShown(cfg, s, j2, choice, j, d);
      case DeleteKb(kb) =>
        KbKeepsOthers(s.db, kb, d);
        KbPurged(s.db, j, d, kb);
        hide PurgeKb;
        ChunksOnly(SliceOf(s.db, j, d), DropKbChunks(OwnRows(s.db.chunks, d), kb));
        SliceShown(s.db, PurgeKb(s.db, kb), j, d);
      case DeleteDocument(d2) =>
        DeletionWins.PurgeColumns(s.db, {d2}, true);
        hide Purge;
        OtherPurged(s.db, j, d, {d2}, true);
        SliceShown(s.db, Purge(s.db, {d2}, true), j, d);
      case Retry(d2, j2) =>
        hide ReceiptsFor;
        SameShown(s.db, Apply(cfg, s, e).db, j, d);
      case _ =>
    }
  }

  lemma ChunksOnly(sl: Slice, chunks: map<RowKey, ChunkRow>)
    ensures sl.(chunks := chunks) == sl.(chunks := sl.(chunks := chunks).chunks)
  {}

  lemma KbKeepsOthers(db: Db, kb: Id, d: Id)
    requires d in PurgeKb(db, kb).docs
    ensures d in db.docs && db.docs[d].kb != kb
  {}

  lemma OtherWorkShown(cfg: Config, s: Sys, j2: Id, choice: Output, j: Id, d: Id)
    requires j2 in s.workers && j2 != j && s.workers[j2].doc != d
    requires j in s.db.jobs && s.db.jobs[j].doc == d && d in s.db.docs && d in WorkStep(cfg, s, j2, choice).db.docs
    ensures j in WorkStep(cfg, s, j2, choice).db.jobs
    ensures ShownOf(WorkStep(cfg, s, j2, choice).db, j, d) == ShownOf(s.db, j, d)
  {
    hide SliceOf, Next, Perform, Fails, ShownOf;
    var d2 := s.workers[j2].doc;
    var tx := Next(cfg, s.db, j2, d2, s.workers[j2].pc, choice).tx;
    OtherTx(s.db, j, d, j2, d2, tx);
    if !Fails(cfg.fk, s.db, j2, d2, tx) {
      SliceShown(s.db, Perform(s.db, j2, d2, tx), j, d);
    }
  }

  // ---------- the moves of the document's workers ----------

  /** Which transaction a control point leads to. */
  lemma TxAt(cfg: Config, db: Db, j2: Id, d: Id, pc: Pc, choice: Output)
    ensures var tx := Next(cfg, db, j2, d, pc, choice).tx;
            if pc.Live? && pc.at == Exec(Begin) then tx == BeginTx
            else if pc.Live? && pc.at == Exec(Mark) then tx == MarkTx(MarkStatus(|pc.mem|))
            else if pc.DeadLettering? then tx.DeadTx?
            else tx.NoTx? || tx.StepTx? || tx.PurgeTx? || (tx.FinishTx? && j2 in db.jobs && d in db.docs)
  {
    hide KeyOf, WriteOf, Runner, ParseRowOf;
  }

  /** The row of job j and its receipts after a transaction of a worker of the document. */
  lemma TxOnJob(db: Db, j2: Id, d: Id, tx: Tx, j: Id)
    requires j in db.jobs && !tx.PurgeTx?
    ensures var now := Perform(db, j2, d, tx);
            && j in now.jobs && Done(db, j) <= Done(now, j)
            && (!tx.StepTx? && !tx.FinishTx? ==> now.receipts == db.receipts)
            && (j2 != j ==> now.jobs[j] == db.jobs[j])
            && (tx.StepTx? || tx.NoTx? || tx.MarkTx? ==> now.jobs == db.jobs)
  {
    hide Perform, Done;
    JobsAfter(db, j2, d, tx, j);
    if !tx.StepTx? && !tx.FinishTx? {
      ReceiptsAfter(db, j2, d, tx);
    }
    ReceiptsKept(db, j2, d, tx);
    MoreReceipts(db, Perform(db, j2, d, tx), j);
  }

  lemma JobsAfter(db: Db, j2: Id, d: Id, tx: Tx, j: Id)
    requires j in db.jobs && !tx.PurgeTx?
    ensures var now := Perform(db, j2, d, tx);
            && j in now.jobs && (j2 != j ==> now.jobs[j] == db.jobs[j])
            && (tx.StepTx? || tx.NoTx? || tx.MarkTx? ==> now.jobs == db.jobs)
  {
    hide Written, Cut, Receipted;
    if tx.StepTx? {
      DeletionWins.WrittenColumns(db, d, tx.write);
    }
  }

  lemma ReceiptsAfter(db: Db, j2: Id, d: Id, tx: Tx)
    requires !tx.PurgeTx? && !tx.StepTx? && !tx.FinishTx?
    ensures Perform(db, j2, d, tx).receipts == db.receipts
  {
    hide Cut;
  }

  lemma ReceiptsKept(db: Db, j2: Id, d: Id, tx: Tx)
    requires !tx.PurgeTx?
    ensures forall k | k in db.receipts :: k in Perform(db, j2, d, tx).receipts
  {
    hide Written, Cut;
    if tx.StepTx? {
      DeletionWins.WrittenColumns(db, d, tx.write);
    }
  }

  lemma MoreReceipts(was: Db, now: Db, j: Id)
    requires forall k | k in was.receipts :: k in now.receipts
    ensures Done(was, j) <= Done(now, j)
  {}

  lemma TxOnDocument(db: Db, j2: Id, d: Id, tx: Tx)
    requires d in db.docs && !tx.PurgeTx?
    ensures var now := Perform(db, j2, d, tx);
            && d in now.docs
            && (tx.NoTx? || tx.StepTx? ==> now.docs == db.docs)
            && (tx.MarkTx? ==> now.docs[d].status == tx.status)
            && (tx.BeginTx? || tx.DeadTx? || tx.FinishTx? ==>
                  if j2 in db.jobs then now.docs[d].status == StatusAfter(tx) else now == db)
  {
    hide Written, Receipted, Cut, WithJob;
    if tx.StepTx? {
      DeletionWins.WrittenColumns(db, d, tx.write);
    }
  }

  function StatusAfter(tx: Tx): DocStatus {
    if tx.BeginTx? then Ocr else if tx.FinishTx? then Ready else Failed
  }

  lemma TxOnOwnJob(db: Db, j: Id, d: Id, tx: Tx)
    requires j in db.jobs && d in db.docs && (tx.BeginTx? || tx.DeadTx?)
    ensures var now := Perform(db, j, d, tx);
            j in now.jobs && now.jobs[j].status == if tx.BeginTx? then Running else Dead
  {
    hide Cut;
  }

  lemma DoneByReceipts(was: Db, now: Db, j: Id)
    requires was.receipts == now.receipts
    ensures Done(was, j) == Done(now, j)
  {}

  lemma SucceededDone(cfg: Config, s: Sys, j: Id, d: Id, doc0: Document, outs: seq<Output>)
    requires Healthy(cfg, s, j, d, doc0, outs)
    ensures j in s.db.jobs && d in s.db.docs && (s.db.jobs[j].status == Succeeded ==> Finalize in Done(s.db, j))
  {
    hide Healthy, Done;
    LengthBound(cfg, s, j, d, doc0, outs);
    FinalizeDone(cfg, s, j, d, doc0, outs);
  }

  /** What a transaction does to the percentage. */
  lemma TxDrops(db: Db, j2: Id, d: Id, tx: Tx, j: Id)
    requires j in db.jobs && d in db.docs && !tx.PurgeTx? && !Fails(false, db, j2, d, tx)
    requires db.jobs[j].status == Succeeded ==> Finalize in Done(db, j)
    requires tx.MarkTx? ==> IsPhase(tx.status) && tx.status != Ready
    requires tx.FinishTx? ==> j2 in db.jobs
    ensures var now := Perform(db, j2, d, tx);
            var doc, job, done := db.docs[d].status, db.jobs[j].status, Done(db, j);
            && j in now.jobs && d in now.docs
            && (ShownOf(now, j, d) < ShownOf(db, j, d) <==>
                  match tx
                  case BeginTx => j2 in db.jobs && FallsTo(Ocr, doc, job, done)
                  case MarkTx(status) => FallsTo(status, doc, job, done)
                  case DeadTx(_) =>
                    && j2 in db.jobs
                    && (OnFloor(doc, job, done) || (ShownOf(db, j, d) == 100 && (j2 == j || job != Succeeded)))
                  case _ => false)
  {
    hide Perform, Shown, OnFloor, Fails, Done;
    var now := Perform(db, j2, d, tx);
    var doc, job, done := db.docs[d].status, db.jobs[j].status, Done(db, j);
    TxOnJob(db, j2, d, tx, j);
    TxOnDocument(db, j2, d, tx);
    if j2 == j && (tx.BeginTx? || tx.DeadTx?) {
      TxOnOwnJob(db, j, d, tx);
    }
    if now.receipts == db.receipts {
      DoneByReceipts(db, now, j);
    }
    match tx
    case BeginTx => StatusDrop(Ocr, if j2 == j then Running else job, doc, job, done);
    case MarkTx(status) => StatusDrop(status, job, doc, job, done);
    case DeadTx(_) =>
      FailureDrop(if j2 == j then Dead else job, doc, job, done);
      OnFloorOpen(doc, job, done);
    case FinishTx(_, _, _) =>
      HundredExactly(now.docs[d].status, now.jobs[j].status, Done(now, j));
      ShownTop(doc, job, done);
    case _ => ShownGrows(doc, job, done, Done(now, j));
  }

  lemma OnFloorOpen(doc: DocStatus, job: JobStatus, done: set<Step>)
    ensures OnFloor(doc, job, done) ==> job != Succeeded
  {}

  lemma MarkPhase(n: nat)
    ensures IsPhase(MarkStatus(n)) && MarkStatus(n) != Ready
  {}

  lemma WorkDrops(cfg: Config, s: Sys, j2: Id, choice: Output, j: Id, d: Id, doc0: Document, outs: seq<Output>)
    requires Healthy(cfg, s, j, d, doc0, outs) && j2 in s.workers && s.workers[j2].doc == d
    requires d in WorkStep(cfg, s, j2, choice).db.docs
    ensures j in s.db.jobs && d in s.db.docs && j in WorkStep(cfg, s, j2, choice).db.jobs
    ensures ShownOf(WorkStep(cfg, s, j2, choice).db, j, d) < ShownOf(s.db, j, d) <==> Drops(s, Work(j2, choice), j, d)
  {
    hide Healthy, ShownOf, Done, OnFloor, Perform, Next, Fails, FallsTo;
    SucceededDone(cfg, s, j, d, doc0, outs);
    var pc := s.workers[j2].pc;
    var tx := Next(cfg, s.db, j2, d, pc, choice).tx;
    TxAt(cfg, s.db, j2, d, pc, choice);
    FailureIs(cfg.fk, s.db, j2, d, tx);
    if pc.Live? {
      MarkPhase(|pc.mem|);
    }
    if !Fails(cfg.fk, s.db, j2, d, tx) {
      if tx.PurgeTx? {
        CleanRun.PurgeRemoves(s.db, j2, d);
        assert false;
      }
      TxDrops(s.db, j2, d, tx, j);
    }
  }

  lemma FailureIs(fk: bool, db: Db, j2: Id, d: Id, tx: Tx)
    ensures Fails(fk, db, j2, d, tx) && d in db.docs ==> tx.StepTx? || (tx.BeginTx? && j2 !in db.jobs)
    ensures !Fails(fk, db, j2, d, tx) ==> !Fails(false, db, j2, d, tx)
  {}

  // ---------- exactly ----------

  lemma RetryMove(cfg: Config, s: Sys, e: Event, j: Id, d: Id)
    requires j in s.db.jobs && Retries(e, d) && Enabled(s, e)
    ensures var next := Apply(cfg, s, e);
            && j in next.db.jobs && d in next.db.docs && next.db.receipts == s.db.receipts
            && next.db.docs[d].status == Pending && next.db.jobs[j].status == s.db.jobs[j].status
  {}

  lemma RetryDrops(cfg: Config, s: Sys, e: Event, j: Id, d: Id)
    requires j in s.db.jobs && d in s.db.docs && Retries(e, d) && Enabled(s, e)
    requires s.db.jobs[j].status == Succeeded ==> Finalize in Done(s.db, j)
    ensures j in Apply(cfg, s, e).db.jobs && d in Apply(cfg, s, e).db.docs
    ensures ShownOf(Apply(cfg, s, e).db, j, d) < ShownOf(s.db, j, d) <==> Drops(s, e, j, d)
  {
    hide Shown, Done, OnFloor, Apply, Enabled;
    RetryMove(cfg, s, e, j, d);
    DoneByReceipts(s.db, Apply(cfg, s, e).db, j);
    StatusDrop(Pending, s.db.jobs[j].status, s.db.docs[d].status, s.db.jobs[j].status, Done(s.db, j));
  }

  lemma EventDrops(cfg: Config, s: Sys, e: Event, j: Id, d: Id, doc0: Document, outs: seq<Output>)
    requires Healthy(cfg, s, j, d, doc0, outs) && d in Apply(cfg, s, e).db.docs
    ensures j in s.db.jobs && d in s.db.docs && j in Apply(cfg, s, e).db.jobs
    ensures ShownOf(Apply(cfg, s, e).db, j, d) < ShownOf(s.db, j, d) <==> Drops(s, e, j, d)
  {
    hide Healthy, Apply, Shown, Done, OnFloor, WorkStep, Enabled;
    SucceededDone(cfg, s, j, d, doc0, outs);
    if e.Work? && e.job in s.workers && s.workers[e.job].doc == d {
      WorkIsApply(cfg, s, e.job, e.choice);
      WorkDrops(cfg, s, e.job, e.choice, j, d, doc0, outs);
    } else if Retries(e, d) {
      if Enabled(s, e) {
        RetryDrops(cfg, s, e, j, d);
      } else {
        NotEnabled(cfg, s, e);
      }
    } else {
      OthersShown(cfg, s, e, j, d, doc0, outs);
    }
  }

  lemma WorkIsApply(cfg: Config, s: Sys, j: Id, choice: Output)
    requires j in s.workers
    ensures Apply(cfg, s, Work(j, choice)) == WorkStep(cfg, s, j, choice)
  {
    hide WorkStep;
  }

  lemma NotEnabled(cfg: Config, s: Sys, e: Event)
    requires !Enabled(s, e)
    ensures Apply(cfg, s, e) == s
  {}

  /** In every run, whatever other workers do, an event that leaves the document in place lowers
      the percentage exactly when the condition above holds just before it. */
  lemma DropsExactly(cfg: Config, s0: Sys, events: seq<Event>, e: Event, j: Id, d: Id)
    requires Submitted(s0, j, d)
    ensures var s, next := Run(cfg, s0, events), Apply(cfg, Run(cfg, s0, events), e);
            d in s.db.docs && d in next.db.docs ==>
              && j in s.db.jobs && j in next.db.jobs
              && (ShownOf(next.db, j, d) < ShownOf(s.db, j, d) <==> Drops(s, e, j, d))
  {
    hide Healthy, Settled, Run, Apply, Undisturbed, Unaccompanied, Drops, Shown, Done;
    var s := Run(cfg, s0, events);
    var outs := RunKeeps(cfg, s0, events, j, d);
    if d in s.db.docs && d in Apply(cfg, s, e).db.docs {
      EventDrops(cfg, s, e, j, d, SubmittedDocument(s0, j, d), outs);
    }
    hide Submitted;
  }

  /** A retry makes another job the latest, and that one starts from nothing. */
  lemma RetryStartsOver(cfg: Config, s: Sys, d: Id, j: Id)
    requires Enabled(s, Retry(d, j)) && forall k | k in s.db.receipts :: k.job != j
    ensures var next := Apply(cfg, s, Retry(d, j));
            j in next.db.jobs && d in next.db.docs && ShownOf(next.db, j, d) == 0
  {
    hide TopProgress, Shown;
    var done := Done(Apply(cfg, s, Retry(d, j)).db, j);
    assert done == {};
    ShownIs(Pending, Queued, done);
    TopOfNothing(done);
  }

  // ---------- runs in which it falls ----------

  /** The OCR result is receipted and the document marked for embedding. */
  function HalfwayEvents(j: Id, ocr: seq<Output>): seq<Event> {
    CleanRun.CleanEvents(j, ocr) + CleanRun.Repeat(Work(j, SessionOutput("")), 2)
  }

  lemma {:induction false} OwnEventsAlone(cfg: Config, s0: Sys, events: seq<Event>, j: Id, d: Id)
    requires CleanRun.OnlyMoves(events, j)
    ensures AttemptAlone(cfg, s0, events, j, d)
  {
    hide Apply, Attempting;
    if events != [] {
      var n := |events| - 1;
      OwnEventsAlone(cfg, s0, events[..n], j, d);
      assert events[n].job == j;
    }
  }

  lemma HalfwayOwn(j: Id, ocr: seq<Output>)
    ensures CleanRun.OnlyMoves(HalfwayEvents(j, ocr), j)
  {
    hide CleanRun.CleanEvents, CleanRun.Repeat;
    CleanRun.CleanEventsOnly(j, ocr);
    CleanRun.RepeatOnly(Work(j, SessionOutput("")), 2, j);
  }

  lemma HalfwayStanding(cfg: Config, s0: Sys, j: Id, d: Id, ocr: seq<Output>)
    requires Submitted(s0, j, d) && (cfg.fk ==> s0.db.docs[d].kb in s0.db.kbs)
    requires Possible(cfg, d, ocr) && |ocr| == 2
    ensures CleanRun.Standing(cfg, Run(cfg, s0, HalfwayEvents(j, ocr)), j, d, s0.db.docs[d], ocr,
                              Live(Check(Do), s0.db.docs[d], ocr))
  {
    hide CleanRun.Standing, Run, Possible, CleanRun.Moved, CleanRun.Repeat, CleanRun.StepEvents, CleanRun.OpeningEvents,
        WorkStep, Healthy, Settled, SliceOf;
    var doc0, x := s0.db.docs[d], SessionOutput("");
    SubmittedHealthy(cfg, s0, j, d);
    SubmittedIdle(s0, j, d);
    hide Submitted;
    CleanRun.Opening(cfg, s0, j, d, doc0, []);
    assert ocr[..0] == [] && ocr[..2] == ocr;
    var opening, steps := CleanRun.OpeningEvents(j), CleanRun.StepEvents(j, ocr);
    var s1 := Run(cfg, s0, opening);
    CleanRun.StepsSucceed(cfg, s1, j, d, doc0, ocr, 0, 2, doc0);
    CleanRun.RunAppend(cfg, s0, opening, steps);
    var s2 := Run(cfg, s0, CleanRun.CleanEvents(j, ocr));
    var pc2 := Live(Check(Mark), doc0, ocr);
    assert CleanRun.Standing(cfg, s2, j, d, doc0, ocr, pc2);
    CleanRun.RunAppend(cfg, s0, CleanRun.CleanEvents(j, ocr), CleanRun.Repeat(Work(j, x), 2));
    CleanRun.MovedIs(cfg, s2, j, x, 2);
    CleanRun.MovedNone(cfg, s2, j, x);
    CleanRun.Known(cfg, s2, j, d, doc0, ocr, pc2);
    CleanRun.MovedOnce(cfg, s2, j, x, 0);
    CleanRun.MoveCheck(cfg, s2, j, x, d, doc0, ocr, pc2);
    var s3, pc3 := WorkStep(cfg, s2, j, x), pc2.(at := Exec(Mark));
    CleanRun.Known(cfg, s3, j, d, doc0, ocr, pc3);
    CleanRun.MovedOnce(cfg, s2, j, x, 1);
    CleanRun.MoveStatus(cfg, s3, j, x, d, doc0, ocr, pc3);
  }

  lemma SubmittedIdle(s: Sys, j: Id, d: Id)
    requires Submitted(s, j, d)
    ensures j in s.workers && s.workers[j].pc.Idle? && d in s.db.docs && CleanRun.SnapOf(s, d) == s.db.docs[d]
  {}

  /** 35 per cent are receipted, and 40 are shown. */
  ghost predicate Halfway(s: Sys, j: Id, d: Id) {
    && j in s.workers && s.workers[j].doc == d && s.workers[j].pc.Live?
    && j in s.db.jobs && s.db.jobs[j].status == Running
    && d in s.db.docs && s.db.docs[d].status == Embedding
    && TopProgress(Done(s.db, j), STEPS) == 35 && Finalize !in Done(s.db, j)
  }

  lemma TopOfTwo(done: set<Step>)
    requires done == set i: nat | i < 2 :: StepAt(i)
    ensures TopProgress(done, STEPS) == 35 && Finalize !in done
  {
    assert done == {UploadToOcr, PollAndFetchOcr} by { assert StepAt(0) in done && StepAt(1) in done; }
    hide TopProgress;
    TopProgressIs(done, STEPS);
    assert StepAt(1) in done;
  }

  lemma HalfwayReached(cfg: Config, s0: Sys, j: Id, d: Id, ocr: seq<Output>)
    requires Submitted(s0, j, d) && (cfg.fk ==> s0.db.docs[d].kb in s0.db.kbs)
    requires Possible(cfg, d, ocr) && |ocr| == 2
    ensures Halfway(Run(cfg, s0, HalfwayEvents(j, ocr)), j, d)
  {
    hide CleanRun.Standing, Run, Possible, HalfwayEvents, AttemptAlone, Done, StepAt, TopProgress, CleanRun.OnlyMoves,
        Steady, Submitted, Healthy;
    DocOf(s0, j, d);
    var events, doc0 := HalfwayEvents(j, ocr), s0.db.docs[d];
    var s := Run(cfg, s0, events);
    HalfwayStanding(cfg, s0, j, d, ocr);
    var pc := Live(Check(Do), doc0, ocr);
    CleanRun.Known(cfg, s, j, d, doc0, ocr, pc);
    CleanRun.StandingHealthy(cfg, s, j, d, doc0, ocr, pc);
    HealthyWorker(cfg, s, j, d, doc0, ocr);
    GoodPlace(cfg, s, j, d, doc0, ocr);
    HalfwayOwn(j, ocr);
    OwnEventsAlone(cfg, s0, events, j, d);
    RunSteady(cfg, s0, events, j, d);
    InAttemptShown(s, j, d);
    DoneIs(cfg, s, j, d, doc0, ocr);
    TopOfTwo(Done(s.db, j));
  }

  lemma HalfwayShown(s: Sys, j: Id, d: Id)
    requires Halfway(s, j, d)
    ensures ShownOf(s.db, j, d) == 40
    ensures Shown(Ocr, Running, Done(s.db, j)) == 35 && Shown(Failed, Dead, Done(s.db, j)) == 35
    ensures !CancelledOrDeleted(s.db, j, d)
  {
    hide Shown, Done, TopProgress;
    ShownIs(Embedding, Running, Done(s.db, j));
    ShownIs(Ocr, Running, Done(s.db, j));
    ShownIs(Failed, Dead, Done(s.db, j));
  }

  /** Killed and delivered again, up to the commit that marks the job running. */
  lemma Redelivered(cfg: Config, s: Sys, j: Id, d: Id, x: Output)
    requires j in s.workers && s.workers[j].doc == d && s.workers[j].pc.Live? && !CancelledOrDeleted(s.db, j, d)
    ensures var r := Run(cfg, s, [Crash(j), Deliver(j), Work(j, x), Work(j, x)]);
            && r.db == s.db && j in r.workers && r.workers[j].doc == d
            && r.workers[j].pc.Live? && r.workers[j].pc.at == Exec(Begin)
  {
    var a, b, c := [Crash(j)], [Crash(j), Deliver(j)], [Crash(j), Deliver(j), Work(j, x)];
    CleanRun.RunOne(cfg, s, Crash(j));
    RunSnoc(cfg, s, a, Deliver(j));
    RunSnoc(cfg, s, b, Work(j, x));
    RunSnoc(cfg, s, c, Work(j, x));
    hide Run;
    assert a + [Deliver(j)] == b && b + [Work(j, x)] == c;
    assert c + [Work(j, x)] == [Crash(j), Deliver(j), Work(j, x), Work(j, x)];
    var s1, s2 := At(s, j, Idle), At(At(s, j, Idle), j, Start);
    StartMove(cfg, s2, j, d, x);
    CheckMove(cfg, WorkStep(cfg, s2, j, x), j, d, x);
    hide WorkStep, CancelledOrDeleted;
  }

  lemma RunSnoc(cfg: Config, s: Sys, events: seq<Event>, e: Event)
    ensures Run(cfg, s, events + [e]) == Apply(cfg, Run(cfg, s, events), e)
  {
    assert (events + [e])[..|events|] == events;
    hide Apply;
  }

  lemma StartMove(cfg: Config, s: Sys, j: Id, d: Id, x: Output)
    requires j in s.workers && s.workers[j] == Worker(d, Start) && !CancelledOrDeleted(s.db, j, d)
    ensures d in s.db.docs && WorkStep(cfg, s, j, x) == At(s, j, Live(Check(Begin), s.db.docs[d], []))
  {}

  lemma CheckMove(cfg: Config, s: Sys, j: Id, d: Id, x: Output)
    requires j in s.workers && s.workers[j].doc == d && !CancelledOrDeleted(s.db, j, d)
    requires s.workers[j].pc.Live? && s.workers[j].pc.at.Check?
    ensures var pc := s.workers[j].pc; WorkStep(cfg, s, j, x) == At(s, j, pc.(at := Exec(pc.at.phase)))
  {}

  /** Failed, up to the commit that dead-letters the job. */
  lemma FailedAttempt(cfg: Config, s: Sys, j: Id, d: Id, x: Output, error: string)
    requires j in s.workers && s.workers[j].doc == d && s.workers[j].pc.Live? && !CancelledOrDeleted(s.db, j, d)
    ensures var r := Run(cfg, s, [Raise(j, error), Work(j, x)]);
            && r.db == s.db && j in r.workers && r.workers[j].doc == d && r.workers[j].pc.DeadLettering?
  {
    CleanRun.RunOne(cfg, s, Raise(j, error));
    RunSnoc(cfg, s, [Raise(j, error)], Work(j, x));
    assert [Raise(j, error)] + [Work(j, x)] == [Raise(j, error), Work(j, x)];
    FailingMove(cfg, At(s, j, Failing(error)), j, d, x, error);
    hide Run, WorkStep, CancelledOrDeleted;
  }

  lemma FailingMove(cfg: Config, s: Sys, j: Id, d: Id, x: Output, error: string)
    requires j in s.workers && s.workers[j] == Worker(d, Failing(error)) && !CancelledOrDeleted(s.db, j, d)
    ensures WorkStep(cfg, s, j, x) == At(s, j, DeadLettering(error))
  {}

  /** From every submitted job two runs reach such an event: after a crash the redelivered
      attempt takes the percentage from 40 back to 35, and so does the dead-letter commit of an
      attempt that fails there. */
  lemma DropsReachable(cfg: Config, s0: Sys, j: Id, d: Id, ocr: seq<Output>, x: Output, error: string)
      returns (toBegin: seq<Event>, toDead: seq<Event>)
    requires Submitted(s0, j, d) && (cfg.fk ==> s0.db.docs[d].kb in s0.db.kbs)
    requires Possible(cfg, d, ocr) && |ocr| == 2
    ensures Falls(Run(cfg, s0, toBegin), Apply(cfg, Run(cfg, s0, toBegin), Work(j, x)), j, d)
    ensures Falls(Run(cfg, s0, toDead), Apply(cfg, Run(cfg, s0, toDead), Work(j, x)), j, d)
    ensures HalfwayEvents(j, ocr) <= toBegin && HalfwayEvents(j, ocr) <= toDead
  {
    hide Submitted, Possible, Run, HalfwayEvents, Apply, Falls, CancelledOrDeleted;
    var half := HalfwayEvents(j, ocr);
    var s := Run(cfg, s0, half);
    HalfwayReached(cfg, s0, j, d, ocr);
    HalfwayShown(s, j, d);
    HalfwayAt(s, j, d);
    var again, failed := [Crash(j), Deliver(j), Work(j, x), Work(j, x)], [Raise(j, error), Work(j, x)];
    toBegin, toDead := half + again, half + failed;
    CleanRun.RunAppend(cfg, s0, half, again);
    CleanRun.RunAppend(cfg, s0, half, failed);
    Redelivered(cfg, s, j, d, x);
    FailedAttempt(cfg, s, j, d, x, error);
    FallsAtBegin(cfg, Run(cfg, s, again), j, d, x);
    FallsAtDeath(cfg, Run(cfg, s, failed), j, d, x);
  }

  lemma HalfwayAt(s: Sys, j: Id, d: Id)
    requires Halfway(s, j, d)
    ensures j in s.workers && s.workers[j].doc == d && s.workers[j].pc.Live? && j in s.db.jobs && d in s.db.docs
  {
    hide TopProgress, Done;
  }

  ghost predicate Falls(s: Sys, next: Sys, j: Id, d: Id) {
    && j in s.db.jobs && d in s.db.docs && j in next.db.jobs && d in next.db.docs
    && ShownOf(s.db, j, d) == 40 && ShownOf(next.db, j, d) == 35
  }

  lemma BeginMove(cfg: Config, s: Sys, choice: Output, j: Id, d: Id)
    requires j in s.workers && s.workers[j].doc == d && j in s.db.jobs && d in s.db.docs
    requires s.workers[j].pc.Live? && s.workers[j].pc.at == Exec(Begin)
    ensures var next := WorkStep(cfg, s, j, choice);
            && j in next.db.jobs && d in next.db.docs && next.db.receipts == s.db.receipts
            && next.db.docs[d].status == Ocr && next.db.jobs[j].status == Running
  {}

  lemma DeadMove(cfg: Config, s: Sys, choice: Output, j: Id, d: Id)
    requires j in s.workers && s.workers[j].doc == d && j in s.db.jobs && d in s.db.docs
    requires s.workers[j].pc.DeadLettering?
    ensures var next := WorkStep(cfg, s, j, choice);
            && j in next.db.jobs && d in next.db.docs && next.db.receipts == s.db.receipts
            && next.db.docs[d].status == Failed && next.db.jobs[j].status == Dead
  {
    hide Cut;
  }

  lemma FallsAtBegin(cfg: Config, s: Sys, j: Id, d: Id, x: Output)
    requires j in s.workers && s.workers[j].doc == d && j in s.db.jobs && d in s.db.docs
    requires s.workers[j].pc.Live? && s.workers[j].pc.at == Exec(Begin)
    requires ShownOf(s.db, j, d) == 40 && Shown(Ocr, Running, Done(s.db, j)) == 35
    ensures Falls(s, Apply(cfg, s, Work(j, x)), j, d)
  {
    hide Shown, Done, WorkStep;
    WorkIsApply(cfg, s, j, x);
    BeginMove(cfg, s, x, j, d);
    DoneByReceipts(s.db, WorkStep(cfg, s, j, x).db, j);
  }

  lemma FallsAtDeath(cfg: Config, s: Sys, j: Id, d: Id, x: Output)
    requires j in s.workers && s.workers[j].doc == d && j in s.db.jobs && d in s.db.docs
    requires s.workers[j].pc.DeadLettering?
    requires ShownOf(s.db, j, d) == 40 && Shown(Failed, Dead, Done(s.db, j)) == 35
    ensures Falls(s, Apply(cfg, s, Work(j, x)), j, d)
  {
    hide Shown, Done, WorkStep;
    WorkIsApply(cfg, s, j, x);
    DeadMove(cfg, s, x, j, d);
    DoneByReceipts(s.db, WorkStep(cfg, s, j, x).db, j);
  }
}
