/** The ingest worker as a transition system: attempts of many jobs interleave with
    deletions and retries, and may be killed, fail, or be redelivered at every await. */
module Ingest {
  import opened Wrappers
  import opened Tables
  import opened Deletion
  import Outline
  import Chunker
  import PageIndex

  /** What stays fixed over a run: parser and chunker settings, and whether the database
      enforces its foreign keys (MySQL does, the SQLite set-up does not). */
  datatype Config = Config(outline: Outline.Env, chunker: Chunker.Env, fk: bool)

  const STEPS: nat := 9
  const ERROR_LIMIT: nat := 4000
  const AUDIT_ERROR_LIMIT: nat := 1000
  const STALE_ROW := "UPDATE statement on table expected to update 1 row(s); 0 were matched."
  const INTEGRITY := "IntegrityError"
  const RUNNER_FAILED := "runner failed"
  const LENGTH_MISMATCH := "zip() argument 2 has another length"

  // ---------- a worker ----------

  /** The stretches between two commits: entering the job, marking the document's next
      status, and one receipted step. */
  datatype Phase = Begin | Mark | Do

  /** Within a stretch: before the cancellation check, before the transaction, or with the
      step's payload in hand (from a receipt or from a runner) and the commit to come. */
  datatype Point = Check(phase: Phase) | Exec(phase: Phase) | Ran(out: Output, cached: bool)

  /** `snap` is the document as loaded at the start, `mem` the payloads obtained so far. */
  datatype Pc =
    | Idle
    | Start
    | Live(at: Point, snap: Document, mem: seq<Output>)
    | Failing(error: string)
    | DeadLettering(error: string)
    | Cancelling
    | Ended

  datatype Worker = Worker(doc: Id, pc: Pc)

  function StepAt(n: nat): Step {
    if n == 0 then UploadToOcr else if n == 1 then PollAndFetchOcr else if n == 2 then ParseOutline
    else if n == 3 then SectionAwareChunk else if n == 4 then EmbedBatch else if n == 5 then TrackAWrite
    else if n == 6 then TrackBWrite else if n == 7 then AssetRegister else Finalize
  }

  // ---------- what the payloads so far determine ----------

  function SessionOf(mem: seq<Output>): string {
    if |mem| > 0 && mem[0].SessionOutput? then mem[0].session else ""
  }

  function MarkdownOf(mem: seq<Output>): string {
    if |mem| > 1 && mem[1].OcrOutput? then mem[1].markdown else ""
  }

  function ImagesOf(mem: seq<Output>): seq<Asset> {
    if |mem| > 1 && mem[1].OcrOutput? then mem[1].images else []
  }

  function ParsedPayload(mem: seq<Output>): Outline.ParseResult {
    if |mem| > 2 && mem[2].OutlineOutput? then mem[2].parsed else Outline.ParseResult([], [], 0, [])
  }

  function VectorsOf(mem: seq<Output>): seq<Vector> {
    if |mem| > 4 && mem[4].VectorsOutput? then mem[4].vectors else []
  }

  function ParsedOf(cfg: Config, mem: seq<Output>): Outline.ParseResult {
    Outline.Parse(cfg.outline, MarkdownOf(mem))
  }

  function ChunksOf(cfg: Config, mem: seq<Output>): seq<Chunker.Chunk> {
    Chunker.ChunkOutline(cfg.chunker, ParsedOf(cfg, mem).sections)
  }

  ghost function PagesOf(cfg: Config, mem: seq<Output>): seq<PageIndex.PageRow> {
    PageIndex.PageIndexOf(ChunksOf(cfg, mem))
  }

  function Contents(chunks: seq<Chunker.Chunk>): seq<string> {
    seq(|chunks|, i requires 0 <= i < |chunks| => chunks[i].content)
  }

  /** The `input_payload` of step |mem|. */
  ghost function InputOf(cfg: Config, d: Id, sha256: string, mem: seq<Output>): Input {
    var n := |mem|;
    if n == 0 then UploadInput(d, sha256)
    else if n == 1 then PollInput(SessionOf(mem))
    else if n == 2 then ParseInput(MarkdownOf(mem))
    else if n == 3 then ChunkInput(ParsedPayload(mem))
    else if n == 4 then EmbedInput(Contents(ChunksOf(cfg, mem)))
    else if n == 5 then CountInput(d, |ChunksOf(cfg, mem)|)
    else if n == 6 then CountInput(d, |PagesOf(cfg, mem)|)
    else if n == 7 then CountInput(d, |ImagesOf(mem)|)
    else FinalizeInput(d)
  }

  ghost function KeyOf(cfg: Config, j: Id, d: Id, sha256: string, mem: seq<Output>): ReceiptKey {
    ReceiptKey(j, StepAt(|mem|), InputOf(cfg, d, sha256, mem))
  }

  /** What the runner of step |mem| returns.  Only the OCR service and the embedding model
      have a choice, and a result of the wrong shape makes the runner raise. */
  ghost function Runner(cfg: Config, d: Id, mem: seq<Output>, choice: Output): Option<Output> {
    var n := |mem|;
    if n == 0 then if choice.SessionOutput? then Some(choice) else None
    else if n == 1 then if choice.OcrOutput? then Some(choice) else None
    else if n == 2 then Some(OutlineOutput(ParsedOf(cfg, mem)))
    else if n == 3 then Some(ChunksOutput(ChunksOf(cfg, mem)))
    else if n == 4 then
      if choice.VectorsOutput? && |choice.vectors| == |ChunksOf(cfg, mem)| then Some(choice) else None
    else if n == 5 then Some(CountOutput(|ChunksOf(cfg, mem)|))
    else if n == 6 then Some(CountOutput(|PagesOf(cfg, mem)|))
    else if n == 7 then Some(CountOutput(|ImagesOf(mem)|))
    else Some(ReadyOutput(d))
  }

  // ---------- rows a step writes ----------

  datatype Write =
    | NoRows
    | WriteChunks(chunkRows: seq<ChunkRow>)
    | WritePages(pageRows: seq<PageIndex.PageRow>)
    | WriteAssets(assetRows: seq<Asset>)

  function ChunkRows(snap: Document, chunks: seq<Chunker.Chunk>, vectors: seq<Vector>): seq<ChunkRow>
    requires |chunks| == |vectors|
  {
    seq(|chunks|, i requires 0 <= i < |chunks| => ChunkRow(snap.kb, snap.kind, snap.scheme, chunks[i], vectors[i]))
  }

  /** The rows written beside the receipt of step |mem|, or None where the strict zip of
      chunks and vectors raises. */
  ghost function WriteOf(cfg: Config, snap: Document, mem: seq<Output>): Option<Write> {
    if |mem| == 5 then
      if |ChunksOf(cfg, mem)| == |VectorsOf(mem)|
      then Some(WriteChunks(ChunkRows(snap, ChunksOf(cfg, mem), VectorsOf(mem)))) else None
    else if |mem| == 6 then Some(WritePages(PagesOf(cfg, mem)))
    else if |mem| == 7 then Some(WriteAssets(ImagesOf(mem)))
    else Some(NoRows)
  }

  ghost function ParseRowOf(cfg: Config, mem: seq<Output>): ParseRow {
    ParseRow(SessionOf(mem), MarkdownOf(mem), ParsedOf(cfg, mem), |ChunksOf(cfg, mem)|, |ImagesOf(mem)|)
  }

  function Numbered<T>(d: Id, rows: seq<T>): map<RowKey, T> {
    map n | 0 <= n < |rows| :: RowKey(d, n) := rows[n]
  }

  /** All rows of the document deleted, the new ones added. */
  function Replace<T>(rows: map<RowKey, T>, d: Id, anew: seq<T>): map<RowKey, T> {
    DropRows(rows, {d}) + Numbered(d, anew)
  }

  // ---------- transactions ----------

  datatype Tx =
    | NoTx
    | BeginTx
    | MarkTx(status: DocStatus)
    | StepTx(step: Step, input: Input, out: Output, cached: bool, write: Write)
    | FinishTx(input: Input, out: Output, parse: ParseRow)
    | DeadTx(error: string)
    | PurgeTx

  /** The commit raises: an UPDATE finds no row, the receipt key is taken, or an inserted
      row refers to nothing and the database minds. */
  predicate Fails(fk: bool, db: Db, j: Id, d: Id, tx: Tx) {
    match tx
    case BeginTx => j !in db.jobs || d !in db.docs
    case MarkTx(_) => d !in db.docs
    case StepTx(step, input, _, cached, write) =>
      || (!cached && ReceiptKey(j, step, input) in db.receipts)
      || (fk && !cached && j !in db.jobs)
      || (fk && write.WriteChunks? && write.chunkRows != [] &&
            (d !in db.docs || exists r | r in write.chunkRows :: r.kb !in db.kbs))
      || (fk && write.WritePages? && write.pageRows != [] && d !in db.docs)
      || (fk && write.WriteAssets? && write.assetRows != [] && d !in db.docs)
    case _ => false
  }

  function WithDoc(db: Db, d: Id, doc: Document): Db {
    db.(docs := db.docs[d := doc])
  }

  function WithJob(db: Db, j: Id, job: Job): Db {
    db.(jobs := db.jobs[j := job])
  }

  function Written(db: Db, d: Id, write: Write): Db {
    db.(chunks := if write.WriteChunks? then Replace(db.chunks, d, write.chunkRows) else db.chunks,
        pages := if write.WritePages? then Replace(db.pages, d, write.pageRows) else db.pages,
        assets := if write.WriteAssets? then Replace(db.assets, d, write.assetRows) else db.assets)
  }

  function Receipted(receipts: map<ReceiptKey, Output>, key: ReceiptKey, out: Output, cached: bool): map<ReceiptKey,
      Output> {
    if cached then receipts else receipts[key := out]
  }

  function Cut(s: string, limit: nat): string {
    if |s| <= limit then s else s[..limit]
  }

  /** The database after a commit that does not raise. */
  function Perform(db: Db, j: Id, d: Id, tx: Tx): Db {
    match tx
    case NoTx => db
    case BeginTx =>
      if j in db.jobs && d in db.docs then
        WithDoc(WithJob(db, j, db.jobs[j].(status := Running, attempt := db.jobs[j].attempt + 1)), d,
                db.docs[d].(status := Ocr))
      else db
    case MarkTx(status) => if d in db.docs then WithDoc(db, d, db.docs[d].(status := status)) else db
    case StepTx(step, input, out, cached, write) =>
      Written(db, d, write).(receipts := Receipted(db.receipts, ReceiptKey(j, step, input), out, cached))
    case FinishTx(input, out, parse) =>
      if j in db.jobs && d in db.docs then
        var key := ReceiptKey(j, Finalize, input);
        WithDoc(WithJob(db, j, db.jobs[j].(status := Succeeded, lastError := None)), d,
                db.docs[d].(status := Ready, pageCount := Some(parse.outline.pageCount)))
        .(parses := db.parses[d := parse],
          receipts := Receipted(db.receipts, key, out, key in db.receipts))
      else db
    case DeadTx(error) =>
      if j in db.jobs && d in db.docs then
        WithDoc(WithJob(db, j, db.jobs[j].(status := Dead, lastError := Some(Cut(error, ERROR_LIMIT)))), d,
                db.docs[d].(status := Failed))
        .(audits := db.audits + [StepFailed(d, j, db.docs[d].uploader, Cut(error, AUDIT_ERROR_LIMIT))])
      else db
    case PurgeTx => Purge(db, {d}, true)
  }

  // ---------- what a worker does next ----------

  predicate CancelledOrDeleted(db: Db, j: Id, d: Id) {
    || d !in db.docs || j !in db.jobs
    || db.docs[d].status == Deleting || db.jobs[j].status == CancelRequested
  }

  /** Where the attempt stands once it has n payloads and has committed. */
  function Entry(n: nat): Point {
    if n == 0 then Exec(Do) else if n == 2 || n == 5 then Check(Mark) else Check(Do)
  }

  function MarkStatus(n: nat): DocStatus {
    if n == 2 then Embedding else VectorIndexing
  }

  /** The transaction to try, where to go when it commits, and where when it raises. */
  datatype Decision = Decision(tx: Tx, then_: Pc, else_: Pc)

  function Go(pc: Pc): Decision {
    Decision(NoTx, pc, pc)
  }

  ghost function NextLive(cfg: Config, db: Db, j: Id, d: Id, pc: Pc, choice: Output): Decision
    requires pc.Live?
  {
    var mem, n := pc.mem, |pc.mem|;
    match pc.at
    case Check(phase) => if CancelledOrDeleted(db, j, d) then Go(Cancelling) else Go(pc.(at := Exec(phase)))
    case Exec(Begin) => Decision(BeginTx, pc.(at := Entry(0)), Failing(STALE_ROW))
    case Exec(Mark) => Decision(MarkTx(MarkStatus(n)), pc.(at := Check(Do)), Failing(STALE_ROW))
    case Exec(Do) =>
      var key := KeyOf(cfg, j, d, pc.snap.sha256, mem);
      if n >= STEPS - 1 then
        if CancelledOrDeleted(db, j, d) then Go(Cancelling)
        else Decision(FinishTx(key.input, ReadyOutput(d), ParseRowOf(cfg, mem)), Ended, Failing(INTEGRITY))
      else if key in db.receipts then Go(pc.(at := Ran(db.receipts[key], true)))
      else
        var out := Runner(cfg, d, mem, choice);
        if out.Some? then Go(pc.(at := Ran(out.value, false))) else Go(Failing(RUNNER_FAILED))
    case Ran(out, cached) =>
      var key, write := KeyOf(cfg, j, d, pc.snap.sha256, mem), WriteOf(cfg, pc.snap, mem);
      if write.None? then Go(Failing(LENGTH_MISMATCH))
      else Decision(StepTx(key.step, key.input, out, cached, write.value),
                    Live(Entry(n + 1), pc.snap, mem + [out]), Failing(INTEGRITY))
  }

  ghost function Next(cfg: Config, db: Db, j: Id, d: Id, pc: Pc, choice: Output): Decision {
    match pc
    case Idle => Go(pc)
    case Ended => Go(pc)
    case Start =>
      if d !in db.docs then Go(Cancelling)
      else if j !in db.jobs then Go(Ended)
      else Go(Live(Check(Begin), db.docs[d], []))
    case Live(_, _, _) => NextLive(cfg, db, j, d, pc, choice)
    case Failing(error) => if CancelledOrDeleted(db, j, d) then Go(Cancelling) else Go(DeadLettering(error))
    case DeadLettering(error) => Decision(DeadTx(error), Ended, Ended)
    case Cancelling => Decision(PurgeTx, Ended, Ended)
  }

  // ---------- the system ----------

  datatype Sys = Sys(db: Db, workers: map<Id, Worker>)

  datatype Event =
    | Deliver(job: Id)
    | Work(job: Id, choice: Output)
    | Raise(job: Id, error: string)
    | Crash(job: Id)
    | SkipLocked(job: Id)
    | DeleteDocument(doc: Id)
    | DeleteKb(kb: Id)
    | Retry(doc: Id, job: Id)

  function At(s: Sys, j: Id, pc: Pc): Sys
    requires j in s.workers
  {
    s.(workers := s.workers[j := s.workers[j].(pc := pc)])
  }

  ghost function WorkStep(cfg: Config, s: Sys, j: Id, choice: Output): Sys
    requires j in s.workers
  {
    var d := s.workers[j].doc;
    var next := Next(cfg, s.db, j, d, s.workers[j].pc, choice);
    if Fails(cfg.fk, s.db, j, d, next.tx) then At(s, j, next.else_)
    else At(s, j, next.then_).(db := Perform(s.db, j, d, next.tx))
  }

  /** The worker an event concerns is known and where the event can happen. */
  predicate Enabled(s: Sys, e: Event) {
    match e
    case Deliver(j) => j in s.workers && (s.workers[j].pc.Idle? || s.workers[j].pc.Ended?)
    case Work(j, _) => j in s.workers
    case Raise(j, _) => j in s.workers && s.workers[j].pc.Live?
    case Crash(j) => j in s.workers && !s.workers[j].pc.Ended?
    case SkipLocked(j) => j in s.workers && s.workers[j].pc.Start?
    case DeleteDocument(d) => d in s.db.docs
    case DeleteKb(_) => true
    case Retry(d, j) => d in s.db.docs && j !in s.workers && j !in s.db.jobs
  }

  /** One event; an event that cannot happen changes nothing. */
  ghost function Apply(cfg: Config, s: Sys, e: Event): Sys {
    if !Enabled(s, e) then s
    else
      match e
      case Deliver(j) => At(s, j, Start)
      case Work(j, choice) => WorkStep(cfg, s, j, choice)
      case Raise(j, error) => At(s, j, Failing(error))
      case Crash(j) => At(s, j, Idle)
      case SkipLocked(j) => At(s, j, if s.workers[j].doc in s.db.docs then Ended else Cancelling)
      case DeleteDocument(d) => s.(db := Purge(s.db, {d}, true))
      case DeleteKb(kb) => s.(db := PurgeKb(s.db, kb))
      case Retry(d, j) =>
        Sys(WithJob(WithDoc(s.db, d, s.db.docs[d].(status := Pending)), j, Job(d, Queued, 0, None)),
            s.workers[j := Worker(d, Idle)])
  }

  ghost function Run(cfg: Config, s: Sys, events: seq<Event>): Sys {
    if events == [] then s
    else Apply(cfg, Run(cfg, s, events[..|events| - 1]), events[|events| - 1])
  }
}
