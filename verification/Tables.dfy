/** The relational tables the ingest and deletion code works on.  A table is a map; the
    random surrogate ids of chunk, page and asset rows are replaced by the document and a
    running number, and the hash inside a receipt key by the hashed payload itself. */
module Tables {
  import opened Wrappers
  import Outline
  import Chunker
  import PageIndex

  type Id = string
  type Vector = seq<real>

  datatype DocStatus =
    | Pending | Ocr | Embedding | VectorIndexing | Ready | Failed | Disabled | Deleting
    | Parsing | Indexing | OtherStatus(name: string)

  datatype JobStatus = Queued | Running | Succeeded | Dead | JobFailed | CancelRequested | Cancelled

  datatype Kb = Kb(name: string)
  datatype Document = Document(kb: Id, uploader: Id, sha256: string, kind: string, scheme: Option<string>,
                               status: DocStatus, pageCount: Option<nat>)
  datatype Job = Job(doc: Id, status: JobStatus, attempt: nat, lastError: Option<string>)

  /** The receipted steps, in pipeline order. */
  datatype Step =
    | UploadToOcr | PollAndFetchOcr | ParseOutline | SectionAwareChunk | EmbedBatch
    | TrackAWrite | TrackBWrite | AssetRegister | Finalize

  datatype Asset = Asset(name: string, pageNo: Option<int>, caption: Option<string>, content: string)

  /** The `input_payload` of a step, as it enters the idempotency key. */
  datatype Input =
    | UploadInput(doc: Id, sha256: string)
    | PollInput(session: string)
    | ParseInput(markdown: string)
    | ChunkInput(parsed: Outline.ParseResult)
    | EmbedInput(contents: seq<string>)
    | CountInput(doc: Id, count: nat)
    | FinalizeInput(doc: Id)

  /** The payload a step returns and its receipt stores. */
  datatype Output =
    | SessionOutput(session: string)
    | OcrOutput(markdown: string, images: seq<Asset>)
    | OutlineOutput(parsed: Outline.ParseResult)
    | ChunksOutput(chunks: seq<Chunker.Chunk>)
    | VectorsOutput(vectors: seq<Vector>)
    | CountOutput(count: nat)
    | ReadyOutput(doc: Id)

  datatype ReceiptKey = ReceiptKey(job: Id, step: Step, input: Input)
  datatype RowKey = RowKey(doc: Id, n: nat)
  datatype ChunkRow = ChunkRow(kb: Id, kind: string, scheme: Option<string>, chunk: Chunker.Chunk, vector: Vector)
  datatype ParseRow = ParseRow(session: string, markdown: string, outline: Outline.ParseResult,
                               chunkCount: nat, assetCount: nat)
  datatype AuditRow = StepFailed(doc: Id, job: Id, actor: Id, error: string)

  datatype Session = Session(kb: Option<Id>, user: Id, title: string)
  datatype Message = Message(session: Id, content: string)
  datatype Citation = Citation(message: Id, doc: Id, kb: Id, snippet: string)
  datatype Permission = Permission(kb: Id, user: Id, role: string)

  datatype Db = Db(
    kbs: map<Id, Kb>, docs: map<Id, Document>, jobs: map<Id, Job>, receipts: map<ReceiptKey, Output>,
    chunks: map<RowKey, ChunkRow>, pages: map<RowKey, PageIndex.PageRow>, assets: map<RowKey, Asset>,
    parses: map<Id, ParseRow>, audits: seq<AuditRow>,
    sessions: map<Id, Session>, messages: map<Id, Message>, citations: map<Id, Citation>,
    permissions: map<Id, Permission>)

  ghost predicate DocsOk(docs: map<Id, Document>, kbs: set<Id>) {
    forall d | d in docs :: docs[d].kb in kbs
  }

  ghost predicate JobsOk(jobs: map<Id, Job>, docs: set<Id>) {
    forall j | j in jobs :: jobs[j].doc in docs
  }

  ghost predicate ReceiptsOk(receipts: map<ReceiptKey, Output>, jobs: set<Id>) {
    forall k | k in receipts :: k.job in jobs
  }

  ghost predicate ChunksOk(chunks: map<RowKey, ChunkRow>, kbs: set<Id>) {
    forall k | k in chunks :: chunks[k].kb in kbs
  }

  ghost predicate RowsOk<T>(rows: map<RowKey, T>, docs: set<Id>) {
    forall k | k in rows :: k.doc in docs
  }

  ghost predicate ParsesOk(parses: map<Id, ParseRow>, docs: set<Id>) {
    forall d | d in parses :: d in docs
  }

  ghost predicate SessionsOk(sessions: map<Id, Session>, kbs: set<Id>) {
    forall s | s in sessions && sessions[s].kb.Some? :: sessions[s].kb.value in kbs
  }

  ghost predicate MessagesOk(messages: map<Id, Message>, sessions: set<Id>) {
    forall m | m in messages :: messages[m].session in sessions
  }

  ghost predicate CitationsOk(citations: map<Id, Citation>, messages: set<Id>) {
    forall c | c in citations :: citations[c].message in messages
  }

  ghost predicate PermissionsOk(permissions: map<Id, Permission>, kbs: set<Id>) {
    forall p | p in permissions :: permissions[p].kb in kbs
  }

  /** Every declared foreign key points at an existing row. */
  ghost predicate FkOk(db: Db) {
    && DocsOk(db.docs, db.kbs.Keys)
    && JobsOk(db.jobs, db.docs.Keys)
    && ReceiptsOk(db.receipts, db.jobs.Keys)
    && ChunksOk(db.chunks, db.kbs.Keys)
    && RowsOk(db.chunks, db.docs.Keys)
    && RowsOk(db.pages, db.docs.Keys)
    && RowsOk(db.assets, db.docs.Keys)
    && ParsesOk(db.parses, db.docs.Keys)
    && SessionsOk(db.sessions, db.kbs.Keys)
    && MessagesOk(db.messages, db.sessions.Keys)
    && CitationsOk(db.citations, db.messages.Keys)
    && PermissionsOk(db.permissions, db.kbs.Keys)
  }
}
