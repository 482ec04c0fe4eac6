/** `process_ingest_job` as the code has it, statement by statement between two commits, and
    shown to do what the transition system's worker does. */
module IngestWorker {
  import opened Wrappers
  import opened Tables
  import opened Deletion
  import opened Ingest
  import opened IngestAttempt
  import Outline
  import Chunker
  import PageIndex
  import IngestRefinement
  import CrashRefinement
  import CleanRun
  import StoredTables

  /** How the job function ends: the document is ready, the job was cancelled, or an error was raised. */
  datatype Outcome = ReadyOutcome | CancelledOutcome | RaisedOutcome

  datatype Stop = IngestCancelled | Error(message: string)

  /** A stretch that stopped early left the attempt in the handler for its cause. */
  predicate StopsAt<T>(r: Result<T, Stop>, pc: Pc) {
    r.Err? ==> pc == if r.error.IngestCancelled? then Cancelling else Failing(r.error.message)
  }

  ghost function Alone(db: Db, j: Id, d: Id, pc: Pc): Sys {
    Sys(db, map[j := Worker(d, pc)])
  }

  /** One move of a worker that is alone. */
  lemma AloneMoves(cfg: Config, db: Db, j: Id, d: Id, pc: Pc, choice: Output)
    ensures var next := Next(cfg, db, j, d, pc, choice);
            WorkStep(cfg, Alone(db, j, d, pc), j, choice) ==
            if Fails(cfg.fk, db, j, d, next.tx) then Alone(db, j, d, next.else_)
            else Alone(Perform(db, j, d, next.tx), j, d, next.then_)
  {
    hide Next, Fails, Perform;
    var s := Alone(db, j, d, pc);
    assert forall p: Pc :: s.workers[j := Worker(d, p)] == map[j := Worker(d, p)];
  }

  /** The session of one call: the committed database, and the uncommitted one it works on.
      `answers` is what the services answer if they are asked. */
  class Session {
    const cfg: Config
    const j: Id
    const d: Id
    const answers: Answers
    var db: Db
    var work: Db
    ghost const start: Db
    ghost var pc: Pc
    ghost var moves: nat

    /** The committed database is where that many moves of the worker, answered so, lead. */
    ghost predicate Valid()
      reads this
    {
      work == db && Ahead(cfg, Alone(start, j, d, Start), j, answers, moves) == Alone(db, j, d, pc)
    }

    constructor (cfg: Config, db: Db, j: Id, d: Id, answers: Answers)
      ensures Valid() && this.db == db && this.cfg == cfg && this.j == j && this.d == d && this.answers == answers
      ensures pc == Start && start == db && moves == 0
    {
      this.cfg := cfg;
      this.j := j;
      this.d := d;
      this.answers := answers;
      this.db := db;
      work := db;
      start := db;
      pc := Start;
      moves := 0;
    }

    /** What has just been done is the worker's next move. */
    ghost method Moved(was: Db, before: Pc)
      requires Ahead(cfg, Alone(start, j, d, Start), j, answers, moves) == Alone(was, j, d, before)
      requires work == db
      requires var next := Next(cfg, was, j, d, before, ChoiceAt(answers, before));
               if Fails(cfg.fk, was, j, d, next.tx) then db == was && pc == next.else_
               else db == Perform(was, j, d, next.tx) && pc == next.then_
      modifies this`moves
      ensures Valid() && moves == old(moves) + 1
    {
      hide WorkStep, Next, Fails, Perform, ChoiceAt;
      AloneMoves(cfg, was, j, d, before, ChoiceAt(answers, before));
      moves := moves + 1;
    }

    /** The answer the worker's next move would get. */
    ghost function Choice(): Output
      reads this
    {
      ChoiceAt(answers, pc)
    }

    // ---------- cancellation and errors ----------

    method IsCancelledOrDeleted() returns (cancelled: bool)
      ensures cancelled <==> CancelledOrDeleted(work, j, d)
      ensures cancelled <==> d !in work.docs || j !in work.jobs
                             || work.docs[d].status == Deleting || work.jobs[j].status == CancelRequested
    {
      if d !in work.docs || j !in work.jobs {
        return true;
      }
      var document, job := work.docs[d], work.jobs[j];
      cancelled := document.status == Deleting || job.status == CancelRequested;
    }

    method RaiseIfCancelled() returns (raised: bool)
      requires Valid() && pc.Live? && pc.at.Check?
      modifies this`pc, this`moves
      ensures Valid() && raised == CancelledOrDeleted(db, j, d)
      ensures pc == if raised then Cancelling else old(pc).(at := Exec(old(pc).at.phase))
    {
      raised := IsCancelledOrDeleted();
      ghost var before := pc;
      pc := if raised then Cancelling else pc.(at := Exec(pc.at.phase));
      hide Ahead, CancelledOrDeleted;
      Nothing(db, j, d);
      Moved(db, before);
    }

    /** `_finish_cancelled_ingest`. */
    method FinishCancelledIngest()
      requires Valid() && pc == Cancelling
      modifies this
      ensures Valid() && pc == Ended && db == Purge(old(db), {d}, true)
    {
      hide Ahead, Purge;
      ghost var was := db;
      work := HardDeleted(work, d);
      db := work;
      pc := Ended;
      Moved(was, Cancelling);
    }

    /** `mark_dead_letter`, where the rows are still there. */
    method MarkDeadLetter(error: string)
      requires Valid() && pc == DeadLettering(error)
      modifies this
      ensures Valid() && pc == Ended && db == Perform(old(db), j, d, DeadTx(error))
      ensures j !in old(db).jobs || d !in old(db).docs ==> db == old(db)
      ensures j in old(db).jobs && d in old(db).docs ==>
                var job, doc := old(db).jobs[j], old(db).docs[d];
                var kept := if |error| > 4000 then error[..4000] else error;
                var noted := if |error| > 1000 then error[..1000] else error;
                db == old(db).(jobs := old(db).jobs[j := job.(status := Dead, lastError := Some(kept))],
                               docs := old(db).docs[d := doc.(status := Failed)],
                               audits := old(db).audits + [StepFailed(d, j, doc.uploader, noted)])
    {
      hide Ahead;
      ghost var was := db;
      if j in work.jobs && d in work.docs {
        var actor := work.docs[d].uploader;
        work := work.(jobs := work.jobs[j := work.jobs[j].(status := Dead, lastError := Some(Cut(error, ERROR_LIMIT)))]);
        work := work.(docs := work.docs[d := work.docs[d].(status := Failed)]);
        work := work.(audits := work.audits + [StepFailed(d, j, actor, Cut(error, AUDIT_ERROR_LIMIT))]);
        db := work;
      }
      pc := Ended;
      Moved(was, DeadLettering(error));
    }

    /** The handler for any other error. */
    method HandleError(error: string) returns (outcome: Outcome)
      requires Valid() && pc == Failing(error)
      modifies this
      ensures Valid() && pc == Ended && (outcome == CancelledOutcome <==> CancelledOrDeleted(old(db), j, d))
      ensures outcome != ReadyOutcome
      ensures db == if outcome == CancelledOutcome then Purge(old(db), {d}, true) else Perform(old(db), j, d, DeadTx(error))
    {
      hide Ahead, CancelledOrDeleted, Purge, Perform;
      var cancelled := IsCancelledOrDeleted();
      pc := if cancelled then Cancelling else DeadLettering(error);
      Nothing(db, j, d);
      Moved(db, Failing(error));
      if cancelled {
        FinishCancelledIngest();
        return CancelledOutcome;
      }
      MarkDeadLetter(error);
      return RaisedOutcome;
    }

    // ---------- the stretches between commits ----------

    /** Job running, one attempt more, document in OCR. */
    method BeginAttempt() returns (raised: bool)
      requires Valid() && pc.Live? && pc.at == Exec(Begin)
      modifies this
      ensures Valid() && pc == if raised then Failing(STALE_ROW) else old(pc).(at := Entry(0))
      ensures raised <==> j !in old(db).jobs || d !in old(db).docs
      ensures db == if raised then old(db) else Perform(old(db), j, d, BeginTx)
      ensures !raised ==>
                var job, doc := old(db).jobs[j], old(db).docs[d];
                db == old(db).(jobs := old(db).jobs[j := job.(status := Running, attempt := job.attempt + 1)],
                               docs := old(db).docs[d := doc.(status := Ocr)])
    {
      hide Ahead;
      ghost var was, before := db, pc;
      raised := j !in work.jobs || d !in work.docs;
      if raised {
        pc := Failing(STALE_ROW);
      } else {
        var job := work.jobs[j];
        job := job.(status := Running);
        job := job.(attempt := job.attempt + 1);
        work := work.(jobs := work.jobs[j := job]);
        work := work.(docs := work.docs[d := work.docs[d].(status := Ocr)]);
        db := work;
        pc := pc.(at := Entry(0));
      }
      Moved(was, before);
    }

    /** The document enters its next phase. */
    method MarkDocument(status: DocStatus) returns (raised: bool)
      requires Valid() && pc.Live? && pc.at == Exec(Mark) && status == MarkStatus(|pc.mem|)
      modifies this
      ensures Valid() && pc == if raised then Failing(STALE_ROW) else old(pc).(at := Check(Do))
      ensures raised <==> d !in old(db).docs
      ensures db == if raised then old(db) else Perform(old(db), j, d, MarkTx(status))
      ensures !raised ==> db == old(db).(docs := old(db).docs[d := old(db).docs[d].(status := status)])
    {
      hide Ahead;
      ghost var was, before := db, pc;
      raised := d !in work.docs;
      if raised {
        pc := Failing(STALE_ROW);
      } else {
        work := work.(docs := work.docs[d := work.docs[d].(status := status)]);
        db := work;
        pc := pc.(at := Check(Do));
      }
      Moved(was, before);
    }

    method GetReceiptPayload(key: ReceiptKey) returns (payload: Option<Output>)
      ensures payload == if key in work.receipts then Some(work.receipts[key]) else None
    {
      payload := if key in work.receipts then Some(work.receipts[key]) else None;
    }

    /** `run_idempotent_step`, the lookup and the runner: the receipt's payload if there is one,
        else the runner's, if it returns. */
    method LookupOrRun(key: ReceiptKey, answer: Option<Output>) returns (payload: Option<Output>, cached: bool)
      requires Valid() && pc.Live? && pc.at == Exec(Do) && |pc.mem| < STEPS - 1
      requires key == KeyOf(cfg, j, d, pc.snap.sha256, pc.mem) && answer == Runner(cfg, d, pc.mem, Choice())
      modifies this`pc, this`moves
      ensures Valid()
      ensures cached <==> key in db.receipts
      ensures payload == if cached then Some(db.receipts[key]) else answer
      ensures pc == if payload.Some? then old(pc).(at := Ran(payload.value, cached)) else Failing(RUNNER_FAILED)
    {
      hide Ahead, KeyOf, Runner;
      ghost var before := pc;
      payload := GetReceiptPayload(key);
      cached := payload.Some?;
      if !cached {
        payload := answer;
      }
      pc := if payload.Some? then before.(at := Ran(payload.value, cached)) else Failing(RUNNER_FAILED);
      Nothing(db, j, d);
      Moved(db, before);
    }

    /** Delete the document's rows of one table and add the new ones. */
    method WriteRows(write: Write)
      modifies this`work
      ensures work == Written(old(work), d, write)
    {
      hide Replace;
      match write
      {
        case NoRows =>
        case WriteChunks(rows) => work := work.(chunks := Replace(work.chunks, d, rows));
        case WritePages(rows) => work := work.(pages := Replace(work.pages, d, rows));
        case WriteAssets(rows) => work := work.(assets := Replace(work.assets, d, rows));
      }
    }

    method WriteReceipt(key: ReceiptKey, out: Output, cached: bool)
      modifies this`work
      ensures work == old(work).(receipts := Receipted(old(work).receipts, key, out, cached))
    {
      if !cached {
        work := work.(receipts := work.receipts[key := out]);
      }
    }

    /** The rows, the receipt if it is new, and the commit; any of them may raise. */
    method CommitStep(key: ReceiptKey, out: Output, cached: bool, write: Write) returns (raised: bool)
      requires Valid() && pc.Live? && pc.at == Ran(out, cached)
      requires key == KeyOf(cfg, j, d, pc.snap.sha256, pc.mem) && WriteOf(cfg, pc.snap, pc.mem) == Some(write)
      modifies this
      ensures Valid()
      ensures raised <==> Fails(cfg.fk, old(db), j, d, StepTx(key.step, key.input, out, cached, write))
      ensures db == if raised then old(db) else Perform(old(db), j, d, StepTx(key.step, key.input, out, cached, write))
      ensures pc == if raised then Failing(INTEGRITY)
                    else Live(Entry(|old(pc).mem| + 1), old(pc).snap, old(pc).mem + [out])
    {
      hide Ahead, KeyOf, WriteOf, Entry, Replace, Receipted, Fails;
      ghost var was, before := db, pc;
      KeyJob(cfg, j, d, pc.snap.sha256, pc.mem);
      raised := Rejects(write, key, cached);
      if raised {
        pc := Failing(INTEGRITY);
      } else {
        WriteRows(write);
        WriteReceipt(key, out, cached);
        db := work;
        pc := Live(Entry(|pc.mem| + 1), pc.snap, pc.mem + [out]);
      }
      Moved(was, before);
    }

    /** Whether the database refuses the rows or the receipt. */
    method Rejects(write: Write, key: ReceiptKey, cached: bool) returns (rejected: bool)
      requires key.job == j
      ensures forall out :: rejected <==> Fails(cfg.fk, work, j, d, StepTx(key.step, key.input, out, cached, write))
      ensures rejected <==>
                || (!cached && (key in work.receipts || (cfg.fk && j !in work.jobs)))
                || (cfg.fk && match write
                              case NoRows => false
                              case WriteChunks(rows) =>
                                rows != [] && (d !in work.docs || exists r | r in rows :: r.kb !in work.kbs)
                              case WritePages(rows) => rows != [] && d !in work.docs
                              case WriteAssets(rows) => rows != [] && d !in work.docs)
    {
      if !cached && key in work.receipts {
        return true;
      }
      if !cfg.fk {
        return false;
      }
      if !cached && j !in work.jobs {
        return true;
      }
      match write
      {
        case NoRows => return false;
        case WriteChunks(rows) => return rows != [] && (d !in work.docs || exists r | r in rows :: r.kb !in work.kbs);
        case WritePages(rows) => return rows != [] && d !in work.docs;
        case WriteAssets(rows) => return rows != [] && d !in work.docs;
      }
    }

    /** One receipted step from lookup to commit. */
    method Step(key: ReceiptKey, answer: Option<Output>, write: Write) returns (payload: Result<Output, string>)
      requires Valid() && pc.Live? && pc.at == Exec(Do) && |pc.mem| < STEPS - 1
      requires key == KeyOf(cfg, j, d, pc.snap.sha256, pc.mem) && answer == Runner(cfg, d, pc.mem, Choice())
      requires WriteOf(cfg, pc.snap, pc.mem) == Some(write)
      modifies this
      ensures Valid()
      ensures payload == StepResult(cfg.fk, old(db), j, d, key, answer, write)
      ensures payload.Ok? ==> db == Stepped(old(db), d, key, payload.value, write)
      ensures payload.Ok? ==> db.receipts == Receipted(old(db).receipts, key, payload.value, key in old(db).receipts)
      ensures pc == if payload.Ok? then Live(Entry(|old(pc).mem| + 1), old(pc).snap, old(pc).mem + [payload.value])
                    else Failing(payload.error)
    {
      hide Ahead, KeyOf, Runner, WriteOf, Entry, Valid, Fails;
      ghost var was := db;
      KeyJob(cfg, j, d, pc.snap.sha256, pc.mem);
      var out, cached := LookupOrRun(key, answer);
      if out.None? {
        return Err(RUNNER_FAILED);
      }
      var raised := CommitStep(key, out.value, cached, write);
      payload := if raised then Err(INTEGRITY) else Ok(out.value);
      SteppedIs(was, j, d, key, out.value, write);
    }

    /** The last transaction: parse result, page count, statuses, receipt.  The check reads the
        rows as they are committed. */
    method FinishAttempt(key: ReceiptKey, parse: ParseRow) returns (cancelled: bool)
      requires Valid() && pc.Live? && pc.at == Exec(Do) && |pc.mem| == STEPS - 1
      requires key == KeyOf(cfg, j, d, pc.snap.sha256, pc.mem) && parse == ParseRowOf(cfg, pc.mem)
      modifies this
      ensures Valid() && pc == if cancelled then Cancelling else Ended
      ensures cancelled <==> CancelledOrDeleted(old(db), j, d)
      ensures db == if cancelled then old(db) else Perform(old(db), j, d, FinishTx(key.input, ReadyOutput(d), parse))
      ensures !cancelled ==> j in db.jobs && db.jobs[j].status == Succeeded && d in db.docs && db.docs[d].status == Ready
      ensures !cancelled ==>
                && j in old(db).jobs && d in old(db).docs
                && var job, doc := old(db).jobs[j], old(db).docs[d];
                   db == old(db).(jobs := old(db).jobs[j := job.(status := Succeeded, lastError := None)],
                                  docs := old(db).docs[d := doc.(status := Ready, pageCount := Some(parse.outline.pageCount))],
                                  parses := old(db).parses[d := parse],
                                  receipts := if key in old(db).receipts then old(db).receipts
                                              else old(db).receipts[key := ReadyOutput(d)])
    {
      hide Ahead, KeyOf, ParseRowOf, CancelledOrDeleted, Perform, Next, Fails;
      ghost var was, before := db, pc;
      cancelled := IsCancelledOrDeleted();
      NextFinal(cfg, db, j, d, pc, Choice());
      NeverFails(cfg.fk, db, j, d, key, parse);
      if cancelled {
        pc := Cancelling;
        Nothing(db, j, d);
      } else {
        Present(db, j, d);
        FinishIs(db, j, d, key, parse);
        work := work.(parses := work.parses[d := parse]);
        work := work.(docs := work.docs[d := work.docs[d].(pageCount := Some(parse.outline.pageCount), status := Ready)]);
        work := work.(jobs := work.jobs[j := work.jobs[j].(status := Succeeded, lastError := None)]);
        if key !in work.receipts {
          work := work.(receipts := work.receipts[key := ReadyOutput(d)]);
        }
        db := work;
        pc := Ended;
      }
      Moved(was, before);
    }

    /** Upload and OCR result, each the committed one or the service's answer.  Cancellation or an
        error ends the attempt early. */
    method OcrSteps(snap: Document) returns (r: Result<(Output, Output), Stop>)
      requires Valid() && pc == Live(Exec(Do), snap, [])
      modifies this
      ensures Valid() && StopsAt(r, pc)
      ensures r.Ok? ==>
                && pc == Live(Check(Mark), snap, [r.value.0, r.value.1])
                && r.value.0 == Payload(old(db), ReceiptKey(j, UploadToOcr, UploadInput(d, snap.sha256)), answers.upload)
                && var session := if r.value.0.SessionOutput? then r.value.0.session else "";
                   r.value.1 == Payload(old(db), ReceiptKey(j, PollAndFetchOcr, PollInput(session)), answers.ocr)
    {
      hide Ahead, KeyOf, Runner, WriteOf, Valid, CancelledOrDeleted, Fails, Stepped;
      KeyOfOcr(cfg, j, d, snap);
      var upload := Step(ReceiptKey(j, UploadToOcr, UploadInput(d, snap.sha256)),
                         if answers.upload.SessionOutput? then Some(answers.upload) else None, NoRows);
      if upload.Err? {
        return Err(Error(upload.error));
      }
      var cancelled := RaiseIfCancelled();
      if cancelled {
        return Err(IngestCancelled);
      }
      var sessionId := if upload.value.SessionOutput? then upload.value.session else "";
      KeyOfPoll(cfg, j, d, snap, upload.value, answers.ocr);
      var ocr := Step(ReceiptKey(j, PollAndFetchOcr, PollInput(sessionId)),
                      if answers.ocr.OcrOutput? then Some(answers.ocr) else None, NoRows);
      if ocr.Err? {
        return Err(Error(ocr.error));
      }
      assert [upload.value] + [ocr.value] == [upload.value, ocr.value];
      r := Ok((upload.value, ocr.value));
    }

    /** The check, the status change and the check before a new phase. */
    method EnterPhase(status: DocStatus) returns (r: Result<(), Stop>)
      requires Valid() && pc.Live? && pc.at == Check(Mark) && status == MarkStatus(|pc.mem|)
      modifies this
      ensures Valid() && StopsAt(r, pc)
      ensures r.Ok? ==> pc == old(pc).(at := Exec(Do))
    {
      hide Ahead, Valid, CancelledOrDeleted;
      var cancelled := RaiseIfCancelled();
      if cancelled {
        return Err(IngestCancelled);
      }
      var raised := MarkDocument(status);
      if raised {
        return Err(Error(STALE_ROW));
      }
      cancelled := RaiseIfCancelled();
      r := if cancelled then Err(IngestCancelled) else Ok(());
    }

    /** A step, and the check after it. */
    method StepAndCheck(key: ReceiptKey, answer: Option<Output>, write: Write) returns (r: Result<Output, Stop>)
      requires Valid() && pc.Live? && pc.at == Exec(Do) && |pc.mem| < STEPS - 1 && |pc.mem| != 1 && |pc.mem| != 4
      requires key == KeyOf(cfg, j, d, pc.snap.sha256, pc.mem) && answer == Runner(cfg, d, pc.mem, Choice())
      requires WriteOf(cfg, pc.snap, pc.mem) == Some(write)
      modifies this
      ensures Valid() && StopsAt(r, pc)
      ensures r.Ok? ==> pc == Live(Exec(Do), old(pc).snap, old(pc).mem + [r.value])
      ensures r.Ok? ==> StepResult(cfg.fk, old(db), j, d, key, answer, write) == Ok(r.value)
      ensures r.Ok? ==> db == Stepped(old(db), d, key, r.value, write)
      ensures r.Ok? ==> db.receipts == Receipted(old(db).receipts, key, r.value, key in old(db).receipts)
    {
      hide Ahead, KeyOf, Runner, WriteOf, Valid, CancelledOrDeleted, StepResult, Stepped;
      var payload := Step(key, answer, write);
      if payload.Err? {
        return Err(Error(payload.error));
      }
      var cancelled := RaiseIfCancelled();
      r := if cancelled then Err(IngestCancelled) else Ok(payload.value);
    }

    /** Outline, chunks and vectors. */
    method EmbedSteps(snap: Document, upload: Output, ocr: Output, parsed: Outline.ParseResult,
                      chunks: seq<Chunker.Chunk>)
        returns (r: Result<(Output, Output, Output), Stop>)
      requires Valid() && pc == Live(Exec(Do), snap, [upload, ocr])
      requires parsed == ParsedOf(cfg, [upload, ocr]) && chunks == ChunksOf(cfg, [upload, ocr])
      modifies this
      ensures Valid() && StopsAt(r, pc)
      ensures r.Ok? ==>
                && pc == Live(Check(Mark), snap, [upload, ocr, r.value.0, r.value.1, r.value.2])
                && r.value.2 == Payload(old(db), ReceiptKey(j, EmbedBatch, EmbedInput(Contents(chunks))), answers.vectors)
    {
      hide Ahead, KeyOf, Runner, WriteOf, Valid, CancelledOrDeleted, ParsedOf, ChunksOf, Fails, Stepped;
      var markdown := if ocr.OcrOutput? then ocr.markdown else "";
      KeyOfParse(cfg, j, d, snap, upload, ocr, answers.vectors);
      var outline := StepAndCheck(ReceiptKey(j, ParseOutline, ParseInput(markdown)), Some(OutlineOutput(parsed)),
                                  NoRows);
      if outline.Err? {
        return Err(outline.error);
      }
      assert [upload, ocr] + [outline.value] == [upload, ocr, outline.value];
      var parsedPayload := if outline.value.OutlineOutput? then outline.value.parsed
                           else Outline.ParseResult([], [], 0, []);
      KeyOfChunk(cfg, j, d, snap, upload, ocr, outline.value, answers.vectors);
      var chunked := StepAndCheck(ReceiptKey(j, SectionAwareChunk, ChunkInput(parsedPayload)),
                                  Some(ChunksOutput(chunks)), NoRows);
      if chunked.Err? {
        return Err(chunked.error);
      }
      assert [upload, ocr, outline.value] + [chunked.value] == [upload, ocr, outline.value, chunked.value];
      KeyOfEmbed(cfg, j, d, snap, upload, ocr, outline.value, chunked.value, answers.vectors);
      var answer := if answers.vectors.VectorsOutput? && |answers.vectors.vectors| == |chunks|
                    then Some(answers.vectors) else None;
      var vectors := Step(ReceiptKey(j, EmbedBatch, EmbedInput(Contents(chunks))), answer, NoRows);
      if vectors.Err? {
        return Err(Error(vectors.error));
      }
      assert [upload, ocr, outline.value, chunked.value] + [vectors.value] ==
             [upload, ocr, outline.value, chunked.value, vectors.value];
      r := Ok((outline.value, chunked.value, vectors.value));
    }

    /** The strict zip of chunks and vectors raises. */
    ghost method RaiseMismatch()
      requires Valid() && pc.Live? && pc.at == Exec(Do) && |pc.mem| == 5
      requires WriteOf(cfg, pc.snap, pc.mem).None? && Runner(cfg, d, pc.mem, Choice()).Some?
      modifies this`pc, this`moves
      ensures Valid() && pc == Failing(LENGTH_MISMATCH)
    {
      hide Ahead, KeyOf, Runner, WriteOf;
      var before := pc;
      var key := KeyOf(cfg, j, d, pc.snap.sha256, pc.mem);
      var found := key in db.receipts;
      var out := if found then db.receipts[key] else Runner(cfg, d, pc.mem, Choice()).value;
      Nothing(db, j, d);
      pc := before.(at := Ran(out, found));
      Moved(db, before);
      var ran := pc;
      pc := Failing(LENGTH_MISMATCH);
      Moved(db, ran);
    }

    /** Chunk rows, page rows, assets. */
    method WriteTables(snap: Document, mem: seq<Output>, chunks: seq<Chunker.Chunk>, rows: seq<PageIndex.PageRow>)
        returns (r: Result<seq<Output>, Stop>)
      requires Valid() && pc == Live(Exec(Do), snap, mem) && |mem| == 5
      requires chunks == ChunksOf(cfg, mem) && rows == PagesOf(cfg, mem)
      modifies this
      ensures Valid() && StopsAt(r, pc)
      ensures r.Ok? ==> mem <= r.value && |r.value| == STEPS - 1 && pc == Live(Exec(Do), snap, r.value)
      ensures r.Ok? ==>
                && StoredTables.ChunkTableIs(db.chunks, d, snap, chunks, VectorsOf(mem))
                && StoredTables.RowsAre(db.pages, d, rows) && StoredTables.RowsAre(db.assets, d, ImagesOf(mem))
    {
      hide Ahead, KeyOf, Runner, WriteOf, Valid, CancelledOrDeleted, ParsedOf, ChunksOf, PagesOf, VectorsOf, ImagesOf,
          ChunkRows, Stepped, StepResult, StoredTables.ChunkTableIs, StoredTables.RowsAre;
      ghost var was := db;
      var vectors, images := VectorsOf(mem), ImagesOf(mem);
      KeyOfTables(cfg, j, d, snap, mem, mem, Choice());
      if |chunks| != |vectors| {
        RaiseMismatch();
        return Err(Error(LENGTH_MISMATCH));
      }
      var a := StepAndCheck(ReceiptKey(j, TrackAWrite, CountInput(d, |chunks|)), Some(CountOutput(|chunks|)),
                            WriteChunks(ChunkRows(snap, chunks, vectors)));
      if a.Err? {
        return Err(a.error);
      }
      KeyOfTables(cfg, j, d, snap, mem, mem + [a.value], Choice());
      var b := StepAndCheck(ReceiptKey(j, TrackBWrite, CountInput(d, |rows|)), Some(CountOutput(|rows|)),
                            WritePages(rows));
      if b.Err? {
        return Err(b.error);
      }
      KeyOfTables(cfg, j, d, snap, mem, mem + [a.value] + [b.value], Choice());
      var c := StepAndCheck(ReceiptKey(j, AssetRegister, CountInput(d, |images|)), Some(CountOutput(|images|)),
                            WriteAssets(images));
      if c.Err? {
        return Err(c.error);
      }
      TablesAfter(was, d, snap, chunks, vectors, rows, images,
                  [ReceiptKey(j, TrackAWrite, CountInput(d, |chunks|)), ReceiptKey(j, TrackBWrite, CountInput(d, |rows|)),
                   ReceiptKey(j, AssetRegister, CountInput(d, |images|))], [a.value, b.value, c.value]);
      r := Ok(mem + [a.value] + [b.value] + [c.value]);
    }

    /** From the embedding on. */
    method IndexAndFinish(snap: Document, mem: seq<Output>, parsed: Outline.ParseResult, chunks: seq<Chunker.Chunk>)
        returns (r: Result<(), Stop>)
      requires Valid() && pc == Live(Check(Mark), snap, mem) && |mem| == 5
      requires parsed == ParsedOf(cfg, mem) && chunks == ChunksOf(cfg, mem)
      modifies this
      ensures Valid() && StopsAt(r, pc)
      ensures r.Ok? <==> pc == Ended
      ensures r.Ok? ==> j in db.jobs && db.jobs[j].status == Succeeded && d in db.docs && db.docs[d].status == Ready
    {
      hide Ahead, KeyOf, Runner, WriteOf, Valid, CancelledOrDeleted, ParsedOf, ChunksOf, PagesOf, VectorsOf, ImagesOf,
          ParseRowOf;
      var entered := EnterPhase(VectorIndexing);
      if entered.Err? {
        return Err(entered.error);
      }
      var rows, _ := PageIndex.WritePageIndex(chunks);
      PagesIs(cfg, mem);
      var written := WriteTables(snap, mem, chunks, rows);
      if written.Err? {
        return Err(written.error);
      }
      var all := written.value;
      IngestRefinement.PrefixAgrees(cfg, mem, all);
      KeyOfFinal(cfg, j, d, snap, all);
      var parse := ParseRow(SessionOf(all), MarkdownOf(all), parsed, |chunks|, |ImagesOf(all)|);
      var cancelled := FinishAttempt(ReceiptKey(j, Finalize, FinalizeInput(d)), parse);
      r := if cancelled then Err(IngestCancelled) else Ok(());
    }

    /** The body of the `try`. */
    method Attempt(snap: Document) returns (r: Result<(), Stop>)
      requires Valid() && pc == Live(Check(Begin), snap, [])
      modifies this
      ensures Valid() && StopsAt(r, pc)
      ensures r.Ok? <==> pc == Ended
      ensures r.Ok? ==> j in db.jobs && db.jobs[j].status == Succeeded && d in db.docs && db.docs[d].status == Ready
    {
      hide Ahead, KeyOf, Runner, WriteOf, Valid, CancelledOrDeleted, ParsedOf, ChunksOf, PagesOf, VectorsOf, ImagesOf;
      var cancelled := RaiseIfCancelled();
      if cancelled {
        return Err(IngestCancelled);
      }
      var raised := BeginAttempt();
      if raised {
        return Err(Error(STALE_ROW));
      }
      var first := OcrSteps(snap);
      if first.Err? {
        return Err(first.error);
      }
      var upload, ocr := first.value.0, first.value.1;
      var entered := EnterPhase(Embedding);
      if entered.Err? {
        return Err(entered.error);
      }
      var parsed := Outline.ParseOutline(cfg.outline, if ocr.OcrOutput? then ocr.markdown else "");
      var chunks := Chunker.ChunkAll(cfg.chunker, parsed.sections);
      ParsedIs(cfg, [upload, ocr]);
      var second := EmbedSteps(snap, upload, ocr, parsed, chunks);
      if second.Err? {
        return Err(second.error);
      }
      var mem := [upload, ocr, second.value.0, second.value.1, second.value.2];
      IngestRefinement.PrefixAgrees(cfg, [upload, ocr], mem);
      r := IndexAndFinish(snap, mem, parsed, chunks);
    }

    /** `process_ingest_job`, undisturbed from delivery to end.  What it commits is what the
        transition system's worker commits when it gets these answers, whatever it finds in the
        database: a fresh job, the receipts of a killed attempt, or a deleted document.  For a job
        that is neither gone nor cancelled the answers decide: it ends ready, its tables right,
        exactly if they continue its committed payloads to all nine. */
    method ProcessIngestJob() returns (outcome: Outcome)
      requires Valid() && pc == Start && moves == 0
      modifies this
      ensures Valid() && pc == Ended
      ensures outcome == ReadyOutcome <==>
                j in db.jobs && db.jobs[j].status == Succeeded && d in db.docs && db.docs[d].status == Ready
      ensures d !in old(db).docs ==> outcome == CancelledOutcome && db == Purge(old(db), {d}, true)
      ensures forall doc0, outs ::
                CrashRefinement.Healthy(cfg, Alone(old(db), j, d, Start), j, d, doc0, outs)
                && (cfg.fk ==> doc0.kb in old(db).kbs) ==>
                  var all := Completion(cfg, d, outs, answers);
                  && (outcome == ReadyOutcome <==> |all| == STEPS)
                  && (outcome == ReadyOutcome ==> StoredTables.ShowsReceipts(cfg, db, j, d))
                  && AtTheEnd(cfg, Alone(db, j, d, Ended), j, d, doc0, all)
    {
      ghost var was := db;
      JustStarted();
      outcome := Process();
      hide Ahead, Valid, Completion, AtTheEnd, CrashRefinement.Healthy, StoredTables.ShowsReceipts;
      forall doc0, outs |
        CrashRefinement.Healthy(cfg, Alone(was, j, d, Start), j, d, doc0, outs) && (cfg.fk ==> doc0.kb in was.kbs)
        ensures var all := Completion(cfg, d, outs, answers);
                && (outcome == ReadyOutcome <==> |all| == STEPS)
                && (outcome == ReadyOutcome ==> StoredTables.ShowsReceipts(cfg, db, j, d))
                && AtTheEnd(cfg, Alone(db, j, d, Ended), j, d, doc0, all)
      {
        ValidIs();
        AttemptEnds(cfg, Alone(start, j, d, Start), j, d, answers, doc0, outs, moves);
        EndStatus(cfg, db, j, d, doc0, Completion(cfg, d, outs, answers));
      }
    }

    lemma ValidIs()
      requires Valid()
      ensures Ahead(cfg, Alone(start, j, d, Start), j, answers, moves) == Alone(db, j, d, pc)
    {
      hide Ahead;
    }

    lemma JustStarted()
      requires Valid() && moves == 0
      ensures start == db
    {}

    method Process() returns (outcome: Outcome)
      requires Valid() && pc == Start
      modifies this
      ensures Valid() && pc == Ended
      ensures outcome == ReadyOutcome <==>
                j in db.jobs && db.jobs[j].status == Succeeded && d in db.docs && db.docs[d].status == Ready
      ensures d !in old(db).docs ==> outcome == CancelledOutcome && db == Purge(old(db), {d}, true)
    {
      hide Ahead, CancelledOrDeleted, Purge;
      Nothing(db, j, d);
      if d !in work.docs {
        pc := Cancelling;
        Moved(db, Start);
        PurgeGone(db, d);
        FinishCancelledIngest();
        return CancelledOutcome;
      }
      if j !in work.jobs {
        pc := Ended;
        Moved(db, Start);
        return RaisedOutcome;
      }
      var snap := work.docs[d];
      pc := Live(Check(Begin), snap, []);
      Moved(db, Start);
      hide Valid;
      var r := Attempt(snap);
      if r.Ok? {
        return ReadyOutcome;
      }
      match r.error
      {
        case IngestCancelled =>
          PurgeGone(db, d);
          FinishCancelledIngest();
          return CancelledOutcome;
        case Error(message) =>
          PurgeGone(db, d);
          DeadStatus(db, j, d, message);
          outcome := HandleError(message);
      }
    }
  }

  /** The committed payload, or else the service's answer. */
  function Payload(db: Db, key: ReceiptKey, answer: Output): Output {
    if key in db.receipts then db.receipts[key] else answer
  }

  /** What a receipted step gives: the committed payload or the runner's, if the runner returns
      and the commit goes through. */
  ghost function StepResult(fk: bool, db: Db, j: Id, d: Id, key: ReceiptKey, answer: Option<Output>,
                            write: Write): Result<Output, string> {
    var cached := key in db.receipts;
    var out := if cached then Some(db.receipts[key]) else answer;
    if out.None? then Err(RUNNER_FAILED)
    else if Fails(fk, db, j, d, StepTx(key.step, key.input, out.value, cached, write)) then Err(INTEGRITY)
    else Ok(out.value)
  }

  /** The database after a step: its rows replaced, its receipt there. */
  function Stepped(db: Db, d: Id, key: ReceiptKey, out: Output, write: Write): Db {
    Written(db, d, write).(receipts := Receipted(db.receipts, key, out, key in db.receipts))
  }

  lemma SteppedIs(db: Db, j: Id, d: Id, key: ReceiptKey, out: Output, write: Write)
    requires key.job == j
    ensures Perform(db, j, d, StepTx(key.step, key.input, out, key in db.receipts, write)) ==
            Stepped(db, d, key, out, write)
  {
    assert key == ReceiptKey(j, key.step, key.input);
    hide Written, Receipted;
  }

  /** Three steps, each replacing the rows of one table. */
  lemma TablesAfter(db: Db, d: Id, doc: Document, chunks: seq<Chunker.Chunk>, vectors: seq<Vector>,
                    rows: seq<PageIndex.PageRow>, images: seq<Asset>, keys: seq<ReceiptKey>, outs: seq<Output>)
    requires |chunks| == |vectors| && |keys| == 3 && |outs| == 3
    ensures var a := Stepped(db, d, keys[0], outs[0], WriteChunks(ChunkRows(doc, chunks, vectors)));
            var b := Stepped(a, d, keys[1], outs[1], WritePages(rows));
            var c := Stepped(b, d, keys[2], outs[2], WriteAssets(images));
            && StoredTables.ChunkTableIs(c.chunks, d, doc, chunks, vectors)
            && StoredTables.RowsAre(c.pages, d, rows) && StoredTables.RowsAre(c.assets, d, images)
  {
    hide Receipted, Replace, ChunkRows, StoredTables.RowsAre, StoredTables.ChunkTableIs;
    ReplacedAre(db.chunks, d, ChunkRows(doc, chunks, vectors));
    ReplacedAre(db.pages, d, rows);
    ReplacedAre(db.assets, d, images);
    var table := Replace(db.chunks, d, ChunkRows(doc, chunks, vectors));
    StoredTables.ChunkRowsAre(table, d, doc, chunks, vectors);
  }

  lemma ReplacedAre<T(!new)>(table: map<RowKey, T>, d: Id, rows: seq<T>)
    ensures StoredTables.RowsAre(Replace(table, d, rows), d, rows)
  {}

  lemma PurgeGone(db: Db, d: Id)
    ensures d !in Purge(db, {d}, true).docs
  {
    hide DropJobs, DropReceipts, DropRows, DropParses, DropCitations;
  }

  lemma DeadStatus(db: Db, j: Id, d: Id, error: string)
    ensures !CancelledOrDeleted(db, j, d) ==>
              var after := Perform(db, j, d, DeadTx(error)); d in after.docs && after.docs[d].status == Failed
  {
    hide Cut;
  }

  lemma EndStatus(cfg: Config, db: Db, j: Id, d: Id, doc0: Document, all: seq<Output>)
    requires AtTheEnd(cfg, Alone(db, j, d, Ended), j, d, doc0, all)
    ensures |all| == STEPS <==>
              j in db.jobs && db.jobs[j].status == Succeeded && d in db.docs && db.docs[d].status == Ready
    ensures |all| == STEPS ==> StoredTables.ShowsReceipts(cfg, db, j, d)
  {
    hide CrashRefinement.Healthy, IngestRefinement.Settled, StoredTables.ShowsReceipts;
    if |all| == STEPS {
      StoredTables.HealthyShows(cfg, Alone(db, j, d, Ended), j, d, doc0, all);
    }
  }

  // ---------- the concrete keys are the ones of the model ----------

  lemma KeyOfOcr(cfg: Config, j: Id, d: Id, snap: Document)
    ensures KeyOf(cfg, j, d, snap.sha256, []) == ReceiptKey(j, UploadToOcr, UploadInput(d, snap.sha256))
    ensures forall choice :: Runner(cfg, d, [], choice) == if choice.SessionOutput? then Some(choice) else None
    ensures WriteOf(cfg, snap, []) == Some(NoRows)
  {}

  lemma KeyOfPoll(cfg: Config, j: Id, d: Id, snap: Document, upload: Output, choice: Output)
    ensures var mem := [] + [upload];
            && KeyOf(cfg, j, d, snap.sha256, mem) ==
               ReceiptKey(j, PollAndFetchOcr, PollInput(if upload.SessionOutput? then upload.session else ""))
            && Runner(cfg, d, mem, choice) == (if choice.OcrOutput? then Some(choice) else None)
            && WriteOf(cfg, snap, mem) == Some(NoRows)
  {}

  lemma KeyOfParse(cfg: Config, j: Id, d: Id, snap: Document, upload: Output, ocr: Output, choice: Output)
    ensures var mem := [upload, ocr];
            && KeyOf(cfg, j, d, snap.sha256, mem) ==
               ReceiptKey(j, ParseOutline, ParseInput(if ocr.OcrOutput? then ocr.markdown else ""))
            && Runner(cfg, d, mem, choice) == Some(OutlineOutput(ParsedOf(cfg, mem)))
            && WriteOf(cfg, snap, mem) == Some(NoRows)
  {
    hide ParsedOf, ChunksOf;
  }

  lemma KeyOfChunk(cfg: Config, j: Id, d: Id, snap: Document, upload: Output, ocr: Output, outline: Output,
                   choice: Output)
    ensures var mem := [upload, ocr, outline];
            && KeyOf(cfg, j, d, snap.sha256, mem) ==
               ReceiptKey(j, SectionAwareChunk,
                          ChunkInput(if outline.OutlineOutput? then outline.parsed else Outline.ParseResult([], [], 0, [])))
            && Runner(cfg, d, mem, choice) == Some(ChunksOutput(ChunksOf(cfg, [upload, ocr])))
            && WriteOf(cfg, snap, mem) == Some(NoRows)
  {
    IngestRefinement.PrefixAgrees(cfg, [upload, ocr], [upload, ocr, outline]);
    hide ParsedOf, ChunksOf;
  }

  lemma KeyOfEmbed(cfg: Config, j: Id, d: Id, snap: Document, upload: Output, ocr: Output, outline: Output,
                   chunked: Output, choice: Output)
    ensures var mem, chunks := [upload, ocr, outline, chunked], ChunksOf(cfg, [upload, ocr]);
            && KeyOf(cfg, j, d, snap.sha256, mem) == ReceiptKey(j, EmbedBatch, EmbedInput(Contents(chunks)))
            && Runner(cfg, d, mem, choice) ==
               (if choice.VectorsOutput? && |choice.vectors| == |chunks| then Some(choice) else None)
            && WriteOf(cfg, snap, mem) == Some(NoRows)
  {
    IngestRefinement.PrefixAgrees(cfg, [upload, ocr], [upload, ocr, outline, chunked]);
    hide ParsedOf, ChunksOf;
  }

  lemma SamePages(cfg: Config, a: seq<Output>, b: seq<Output>)
    requires ChunksOf(cfg, a) == ChunksOf(cfg, b)
    ensures PagesOf(cfg, a) == PagesOf(cfg, b)
  {}

  /** The three writing steps, with the payloads up to the embedding in `five`. */
  lemma KeyOfTables(cfg: Config, j: Id, d: Id, snap: Document, five: seq<Output>, mem: seq<Output>, choice: Output)
    requires |five| == 5 && five <= mem && |mem| <= 7
    ensures var n := if |mem| == 5 then |ChunksOf(cfg, five)| else if |mem| == 6 then |PagesOf(cfg, five)|
                     else |ImagesOf(five)|;
            && KeyOf(cfg, j, d, snap.sha256, mem) == ReceiptKey(j, StepAt(|mem|), CountInput(d, n))
            && Runner(cfg, d, mem, choice) == Some(CountOutput(n))
            && WriteOf(cfg, snap, mem) ==
               if |mem| == 5 then
                 (if |ChunksOf(cfg, five)| == |VectorsOf(five)|
                  then Some(WriteChunks(ChunkRows(snap, ChunksOf(cfg, five), VectorsOf(five)))) else None)
               else if |mem| == 6 then Some(WritePages(PagesOf(cfg, five)))
               else Some(WriteAssets(ImagesOf(five)))
  {
    IngestRefinement.PrefixAgrees(cfg, five, mem);
    SamePages(cfg, five, mem);
    hide ParsedOf, ChunksOf, PagesOf, ChunkRows;
  }

  lemma KeyOfFinal(cfg: Config, j: Id, d: Id, snap: Document, mem: seq<Output>)
    requires |mem| == STEPS - 1
    ensures KeyOf(cfg, j, d, snap.sha256, mem) == ReceiptKey(j, Finalize, FinalizeInput(d))
    ensures ParseRowOf(cfg, mem) ==
            ParseRow(SessionOf(mem), MarkdownOf(mem), ParsedOf(cfg, mem), |ChunksOf(cfg, mem)|, |ImagesOf(mem)|)
  {
    hide ParsedOf, ChunksOf, PagesOf;
  }

  lemma ParsedIs(cfg: Config, mem: seq<Output>)
    ensures ParsedOf(cfg, mem) == Outline.Parse(cfg.outline, MarkdownOf(mem))
    ensures ChunksOf(cfg, mem) == Chunker.ChunkOutline(cfg.chunker, ParsedOf(cfg, mem).sections)
  {}

  lemma PagesIs(cfg: Config, mem: seq<Output>)
    ensures PagesOf(cfg, mem) == PageIndex.PageIndexOf(ChunksOf(cfg, mem))
  {}

  lemma NextFinal(cfg: Config, db: Db, j: Id, d: Id, pc: Pc, choice: Output)
    requires pc.Live? && pc.at == Exec(Do) && |pc.mem| == STEPS - 1
    ensures Next(cfg, db, j, d, pc, choice) ==
            if CancelledOrDeleted(db, j, d) then Go(Cancelling)
            else Decision(FinishTx(KeyOf(cfg, j, d, pc.snap.sha256, pc.mem).input, ReadyOutput(d), ParseRowOf(cfg, pc.mem)),
                          Ended, Failing(INTEGRITY))
    ensures KeyOf(cfg, j, d, pc.snap.sha256, pc.mem).step == Finalize && KeyOf(cfg, j, d, pc.snap.sha256, pc.mem).job == j
  {
    hide ParseRowOf, InputOf, CancelledOrDeleted;
  }

  lemma NeverFails(fk: bool, db: Db, j: Id, d: Id, key: ReceiptKey, parse: ParseRow)
    ensures !Fails(fk, db, j, d, NoTx) && !Fails(fk, db, j, d, FinishTx(key.input, ReadyOutput(d), parse))
  {}

  lemma FinishIs(db: Db, j: Id, d: Id, key: ReceiptKey, parse: ParseRow)
    requires key.job == j && key.step == Finalize && j in db.jobs && d in db.docs
    ensures var job, doc := db.jobs[j], db.docs[d];
            Perform(db, j, d, FinishTx(key.input, ReadyOutput(d), parse)) ==
            db.(jobs := db.jobs[j := job.(status := Succeeded, lastError := None)],
                docs := db.docs[d := doc.(status := Ready, pageCount := Some(parse.outline.pageCount))],
                parses := db.parses[d := parse],
                receipts := if key in db.receipts then db.receipts else db.receipts[key := ReadyOutput(d)])
  {
    assert key == ReceiptKey(j, Finalize, key.input);
  }

  lemma Present(db: Db, j: Id, d: Id)
    requires !CancelledOrDeleted(db, j, d)
    ensures j in db.jobs && d in db.docs
  {}

  /** `hard_delete_documents` in a session of its own. */
  method HardDeleted(db: Db, d: Id) returns (after: Db)
    ensures after == Purge(db, {d}, true)
  {
    hide Purge, FkOk, DbSession.Sound;
    assert Members([d]) == {d};
    hide Members;
    var session := new DbSession(db);
    var _ := session.HardDeleteDocuments([d], true);
    after := session.db;
  }

  lemma Nothing(db: Db, j: Id, d: Id)
    ensures Perform(db, j, d, NoTx) == db
  {}

  lemma KeyJob(cfg: Config, j: Id, d: Id, sha256: string, mem: seq<Output>)
    ensures KeyOf(cfg, j, d, sha256, mem).job == j
  {
    hide InputOf;
  }
}
