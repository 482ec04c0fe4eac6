/** What the tables hold once a job is through, row by row, said of the database alone: the
    job's receipts, the parser, the chunker and the page index fix every row. */
module StoredTables {
  import opened Wrappers
  import opened Tables
  import opened Ingest
  import opened IngestSlice
  import opened IngestRefinement
  import opened CrashRefinement
  import opened CleanRun
  import opened Publication
  import Outline
  import Chunker
  import PageIndex

  /** The rows of the document are these, numbered from 0, and there are no others. */
  ghost predicate RowsAre<T(!new)>(table: map<RowKey, T>, d: Id, rows: seq<T>) {
    && (forall n: nat :: RowKey(d, n) in table <==> n < |rows|)
    && forall n: nat | n < |rows| && RowKey(d, n) in table :: table[RowKey(d, n)] == rows[n]
  }

  /** Row n holds the n-th chunk with the n-th vector, under the document's columns. */
  ghost predicate ChunkTableIs(table: map<RowKey, ChunkRow>, d: Id, doc: Document, chunks: seq<Chunker.Chunk>,
                               vectors: seq<Vector>) {
    && |vectors| == |chunks|
    && (forall n: nat :: RowKey(d, n) in table <==> n < |chunks|)
    && forall n: nat | n < |chunks| && RowKey(d, n) in table ::
         var row := table[RowKey(d, n)];
         && row.chunk == chunks[n] && row.vector == vectors[n]
         && row.kb == doc.kb && row.kind == doc.kind && row.scheme == doc.scheme
  }

  ghost predicate ParseRowIs(row: ParseRow, session: string, markdown: string, parsed: Outline.ParseResult,
                             chunkCount: nat, assetCount: nat) {
    && row.session == session && row.markdown == markdown && row.outline == parsed
    && row.chunkCount == chunkCount && row.assetCount == assetCount
  }

  /** The four tables hold what this OCR result and these vectors lead to. */
  ghost predicate Shows(cfg: Config, db: Db, d: Id, session: string, markdown: string, images: seq<Asset>,
                        vectors: seq<Vector>)
    requires d in db.docs
  {
    var parsed := Outline.Parse(cfg.outline, markdown);
    var chunks := Chunker.ChunkOutline(cfg.chunker, parsed.sections);
    && ChunkTableIs(db.chunks, d, db.docs[d], chunks, vectors)
    && RowsAre(db.pages, d, PageIndex.PageIndexOf(chunks))
    && RowsAre(db.assets, d, images)
    && d in db.parses && ParseRowIs(db.parses[d], session, markdown, parsed, |chunks|, |images|)
    && db.docs[d].pageCount == Some(parsed.pageCount)
  }

  // ---------- tables of the invariant, read row by row ----------

  lemma OwnNumbered<T(!new)>(table: map<RowKey, T>, d: Id, rows: seq<T>)
    ensures OwnRows(table, d) == Numbered(d, rows) <==> RowsAre(table, d, rows)
  {
    var own, all := OwnRows(table, d), Numbered(d, rows);
    forall n: nat
      ensures RowKey(d, n) in own <==> RowKey(d, n) in table
      ensures RowKey(d, n) in all <==> n < |rows|
    {
    }
    if own == all {
      forall n: nat | n < |rows| ensures table[RowKey(d, n)] == rows[n] {
        assert own[RowKey(d, n)] == all[RowKey(d, n)];
      }
    }
    if RowsAre(table, d, rows) {
      forall k ensures k in own <==> k in all {
        assert k in own || k in all ==> k == RowKey(d, k.n);
      }
      forall k | k in own ensures own[k] == all[k] {
        assert k == RowKey(d, k.n);
      }
    }
  }

  lemma ChunkRowsAre(table: map<RowKey, ChunkRow>, d: Id, doc: Document, chunks: seq<Chunker.Chunk>, vectors: seq<Vector>)
    requires |chunks| == |vectors|
    ensures RowsAre(table, d, ChunkRows(doc, chunks, vectors)) <==> ChunkTableIs(table, d, doc, chunks, vectors)
  {
    var rows := ChunkRows(doc, chunks, vectors);
    forall n: nat | n < |rows|
      ensures rows[n] == ChunkRow(doc.kb, doc.kind, doc.scheme, chunks[n], vectors[n])
    {
    }
  }

  /** Nine possible payloads hold a session, an OCR result and vectors. */
  lemma Shapes(cfg: Config, d: Id, outs: seq<Output>)
    requires Possible(cfg, d, outs) && |outs| == STEPS
    ensures outs[0].SessionOutput? && outs[1].OcrOutput? && outs[4].VectorsOutput?
  {
    EarlierPayloads(cfg, d, outs, STEPS - 1);
  }

  /** The receipt of each step, written out: its key and its payload. */
  ghost predicate ReceiptOf(cfg: Config, j: Id, d: Id, sha256: string, outs: seq<Output>, i: nat, key: ReceiptKey)
    requires i < |outs|
  {
    && key.job == j
    && match i
       case 0 => key.step == UploadToOcr && key.input == UploadInput(d, sha256) && outs[0].SessionOutput?
       case 1 =>
         && key.step == PollAndFetchOcr && outs[0].SessionOutput? && key.input == PollInput(outs[0].session)
         && outs[1].OcrOutput?
       case 2 =>
         && key.step == ParseOutline && outs[1].OcrOutput? && key.input == ParseInput(outs[1].markdown)
         && outs[2] == OutlineOutput(Outline.Parse(cfg.outline, outs[1].markdown))
       case 3 =>
         && key.step == SectionAwareChunk && outs[2].OutlineOutput? && key.input == ChunkInput(outs[2].parsed)
         && outs[3] == ChunksOutput(Chunker.ChunkOutline(cfg.chunker, outs[2].parsed.sections))
       case 4 =>
         && key.step == EmbedBatch && outs[3].ChunksOutput? && outs[4].VectorsOutput?
         && key.input.EmbedInput? && |key.input.contents| == |outs[3].chunks| == |outs[4].vectors|
         && forall k | 0 <= k < |outs[3].chunks| :: key.input.contents[k] == outs[3].chunks[k].content
       case 5 =>
         && key.step == TrackAWrite && outs[3].ChunksOutput? && key.input == CountInput(d, |outs[3].chunks|)
         && outs[5] == CountOutput(|outs[3].chunks|)
       case 6 =>
         && key.step == TrackBWrite && outs[3].ChunksOutput?
         && key.input == CountInput(d, |PageIndex.PageIndexOf(outs[3].chunks)|)
         && outs[6] == CountOutput(|PageIndex.PageIndexOf(outs[3].chunks)|)
       case 7 =>
         && key.step == AssetRegister && outs[1].OcrOutput? && key.input == CountInput(d, |outs[1].images|)
         && outs[7] == CountOutput(|outs[1].images|)
       case _ => i == 8 && key.step == Finalize && key.input == FinalizeInput(d) && outs[i] == ReadyOutput(d)
  }

  lemma PayloadAt(cfg: Config, d: Id, outs: seq<Output>, i: nat)
    requires Possible(cfg, d, outs) && i < |outs|
    ensures i < STEPS && Runner(cfg, d, outs[..i], outs[i]) == Some(outs[i])
  {
    PossiblePrefix(cfg, d, outs, i + 1);
    var some := outs[..i + 1];
    assert some != [] && some[..i] == outs[..i] && some[i] == outs[i];
    hide Runner;
  }

  /** What a runner returns. */
  lemma RunnerIs(cfg: Config, d: Id, mem: seq<Output>, out: Output)
    requires Runner(cfg, d, mem, out) == Some(out)
    ensures |mem| == 0 ==> out.SessionOutput?
    ensures |mem| == 1 ==> out.OcrOutput?
    ensures |mem| == 2 ==> out == OutlineOutput(ParsedOf(cfg, mem))
    ensures |mem| == 3 ==> out == ChunksOutput(ChunksOf(cfg, mem))
    ensures |mem| == 4 ==> out.VectorsOutput? && |out.vectors| == |ChunksOf(cfg, mem)|
    ensures |mem| == 5 ==> out == CountOutput(|ChunksOf(cfg, mem)|)
    ensures |mem| == 6 ==> out == CountOutput(|PagesOf(cfg, mem)|)
    ensures |mem| == 7 ==> out == CountOutput(|ImagesOf(mem)|)
    ensures |mem| >= 8 ==> out == ReadyOutput(d)
  {
    hide ParsedOf, ChunksOf, PagesOf, ImagesOf;
  }

  lemma PrefixIs(cfg: Config, outs: seq<Output>, i: nat)
    requires 2 <= i <= |outs| && outs[1].OcrOutput?
    ensures var mem := outs[..i];
            && MarkdownOf(mem) == outs[1].markdown && ImagesOf(mem) == outs[1].images
            && ParsedOf(cfg, mem) == Outline.Parse(cfg.outline, outs[1].markdown)
            && ChunksOf(cfg, mem) == Chunker.ChunkOutline(cfg.chunker, ParsedOf(cfg, mem).sections)
            && PagesOf(cfg, mem) == PageIndex.PageIndexOf(ChunksOf(cfg, mem))
  {}

  /** The payloads a later step looks at. */
  lemma EarlierPayloads(cfg: Config, d: Id, outs: seq<Output>, i: nat)
    requires Possible(cfg, d, outs) && i < |outs|
    ensures i >= 1 ==> outs[0].SessionOutput?
    ensures i >= 2 ==> outs[1].OcrOutput?
    ensures i >= 3 ==> outs[2] == OutlineOutput(Outline.Parse(cfg.outline, outs[1].markdown))
    ensures i >= 4 ==> outs[3] == ChunksOutput(Chunker.ChunkOutline(cfg.chunker, outs[2].parsed.sections))
    ensures i >= 5 ==> outs[4].VectorsOutput?
  {
    hide Possible, Runner, MarkdownOf, ImagesOf, ParsedOf, ChunksOf, PagesOf;
    EarlierPayload(cfg, d, outs, i, 0);
    EarlierPayload(cfg, d, outs, i, 1);
    EarlierPayload(cfg, d, outs, i, 2);
    EarlierPayload(cfg, d, outs, i, 3);
    EarlierPayload(cfg, d, outs, i, 4);
    if i >= 3 {
      PrefixIs(cfg, outs, 2);
    }
    if i >= 4 {
      PrefixIs(cfg, outs, 3);
    }
  }

  lemma EarlierPayload(cfg: Config, d: Id, outs: seq<Output>, i: nat, k: nat)
    requires Possible(cfg, d, outs) && i < |outs|
    ensures k < i ==> Runner(cfg, d, outs[..k], outs[k]) == Some(outs[k])
    ensures k < i && k == 0 ==> outs[k].SessionOutput?
    ensures k < i && k == 1 ==> outs[k].OcrOutput?
    ensures k < i && k == 2 ==> outs[k] == OutlineOutput(ParsedOf(cfg, outs[..k]))
    ensures k < i && k == 3 ==> outs[k] == ChunksOutput(ChunksOf(cfg, outs[..k]))
    ensures k < i && k == 4 ==> outs[k].VectorsOutput?
  {
    hide Possible, Runner, ParsedOf, ChunksOf;
    if k < i {
      PayloadAt(cfg, d, outs, k);
      RunnerIs(cfg, d, outs[..k], outs[k]);
    }
  }

  lemma EarlyReceipt(cfg: Config, j: Id, d: Id, sha256: string, outs: seq<Output>, i: nat)
    requires Possible(cfg, d, outs) && i < |outs| && i < 5
    ensures ReceiptOf(cfg, j, d, sha256, outs, i, KeyOf(cfg, j, d, sha256, outs[..i]))
  {
    PayloadAt(cfg, d, outs, i);
    EarlierPayloads(cfg, d, outs, i);
    RunnerIs(cfg, d, outs[..i], outs[i]);
    hide Possible, Runner, MarkdownOf, ImagesOf, ParsedOf, ChunksOf, PagesOf;
    if i >= 2 {
      PrefixIs(cfg, outs, i);
    }
  }

  lemma LateReceipt(cfg: Config, j: Id, d: Id, sha256: string, outs: seq<Output>, i: nat)
    requires Possible(cfg, d, outs) && 5 <= i < |outs|
    ensures ReceiptOf(cfg, j, d, sha256, outs, i, KeyOf(cfg, j, d, sha256, outs[..i]))
  {
    PayloadAt(cfg, d, outs, i);
    EarlierPayloads(cfg, d, outs, i);
    RunnerIs(cfg, d, outs[..i], outs[i]);
    hide Possible, Runner, MarkdownOf, ImagesOf, ParsedOf, ChunksOf, PagesOf, SessionOf, ParsedPayload, Contents;
    PrefixIs(cfg, outs, i);
  }

  /** Every committed receipt is keyed by what its predecessors determine and holds what its
      runner computes from them, or what the service has answered. */
  lemma ReceiptsInFull(cfg: Config, j: Id, d: Id, sha256: string, outs: seq<Output>, i: nat)
    requires Possible(cfg, d, outs) && i < |outs|
    ensures ReceiptOf(cfg, j, d, sha256, outs, i, KeyOf(cfg, j, d, sha256, outs[..i]))
  {
    hide *;
    if i < 5 {
      EarlyReceipt(cfg, j, d, sha256, outs, i);
    } else {
      LateReceipt(cfg, j, d, sha256, outs, i);
    }
  }

  /** The receipt of step i is in the table. */
  ghost predicate Stored(cfg: Config, db: Db, j: Id, d: Id, sha256: string, outs: seq<Output>, i: nat, key: ReceiptKey)
  {
    i < |outs| && key in db.receipts && db.receipts[key] == outs[i] && ReceiptOf(cfg, j, d, sha256, outs, i, key)
  }

  ghost predicate StepStored(cfg: Config, db: Db, j: Id, d: Id, sha256: string, outs: seq<Output>, i: nat) {
    exists key :: Stored(cfg, db, j, d, sha256, outs, i, key)
  }

  ghost predicate IsStored(cfg: Config, db: Db, j: Id, d: Id, sha256: string, outs: seq<Output>, key: ReceiptKey) {
    exists i :: Stored(cfg, db, j, d, sha256, outs, i, key)
  }

  /** Each step on the list has its receipt, and every receipt of the job is one of these. */
  ghost predicate ReceiptsAre(cfg: Config, db: Db, j: Id, d: Id, sha256: string, outs: seq<Output>) {
    && |outs| <= 9
    && (forall i: nat | i < |outs| :: StepStored(cfg, db, j, d, sha256, outs, i))
    && forall key | key in db.receipts && key.job == j :: IsStored(cfg, db, j, d, sha256, outs, key)
  }

  lemma PrefixStored(cfg: Config, db: Db, j: Id, d: Id, sha256: string, outs: seq<Output>)
    requires IsPrefix(cfg, db.receipts, j, d, sha256, outs) && Possible(cfg, d, outs)
    ensures ReceiptsAre(cfg, db, j, d, sha256, outs)
  {
    hide KeyOf, ReceiptOf, Possible;
    forall i: nat | i < |outs|
      ensures StepStored(cfg, db, j, d, sha256, outs, i)
    {
      ReceiptsInFull(cfg, j, d, sha256, outs, i);
      assert Stored(cfg, db, j, d, sha256, outs, i, KeyOf(cfg, j, d, sha256, outs[..i]));
    }
    forall key | key in db.receipts && key.job == j
      ensures IsStored(cfg, db, j, d, sha256, outs, key)
    {
      assert InPrefix(cfg, key, j, d, sha256, outs);
      var i: nat :| i < |outs| && key == KeyOf(cfg, j, d, sha256, outs[..i]);
      ReceiptsInFull(cfg, j, d, sha256, outs, i);
      assert Stored(cfg, db, j, d, sha256, outs, i, key);
    }
  }

  /** In every run the receipts of a job are these, step by step, and no others. */
  lemma RunReceipts(cfg: Config, s0: Sys, events: seq<Event>, j: Id, d: Id) returns (outs: seq<Output>)
    requires Submitted(s0, j, d)
    ensures var db := Run(cfg, s0, events).db;
            d in db.docs ==> ReceiptsAre(cfg, db, j, d, s0.db.docs[d].sha256, outs)
  {
    outs := RunKeeps(cfg, s0, events, j, d);
    var s := Run(cfg, s0, events);
    if d in s.db.docs {
      HealthyPrefix(cfg, s, j, d, s0.db.docs[d], outs);
      HealthyFacts(cfg, s, j, d, s0.db.docs[d], outs);
      hide Healthy, Run, Possible, Submitted, IsPrefix, ReceiptsAre;
      PrefixStored(cfg, s.db, j, d, s0.db.docs[d].sha256, outs);
    }
  }

  lemma PayloadsAre(cfg: Config, outs: seq<Output>)
    requires |outs| == STEPS && outs[0].SessionOutput? && outs[1].OcrOutput? && outs[4].VectorsOutput?
    ensures SessionOf(outs) == outs[0].session && MarkdownOf(outs) == outs[1].markdown
    ensures ImagesOf(outs) == outs[1].images && VectorsOf(outs) == outs[4].vectors
    ensures ParsedOf(cfg, outs) == Outline.Parse(cfg.outline, outs[1].markdown)
    ensures ChunksOf(cfg, outs) == Chunker.ChunkOutline(cfg.chunker, ParsedOf(cfg, outs).sections)
    ensures PagesOf(cfg, outs) == PageIndex.PageIndexOf(ChunksOf(cfg, outs))
    ensures var row := ParseRowOf(cfg, outs);
            ParseRowIs(row, outs[0].session, outs[1].markdown, ParsedOf(cfg, outs), |ChunksOf(cfg, outs)|,
                       |outs[1].images|)
  {}

  lemma SliceIs(db: Db, j: Id, d: Id)
    requires d in db.docs
    ensures var sl := SliceOf(db, j, d);
            && sl.doc == Some(db.docs[d]) && sl.chunks == OwnRows(db.chunks, d)
            && sl.pages == OwnRows(db.pages, d) && sl.assets == OwnRows(db.assets, d)
            && sl.parse == (if d in db.parses then Some(db.parses[d]) else None)
  {
    hide OwnRows, ReceiptsFor;
  }

  lemma SameChunkTable(table: map<RowKey, ChunkRow>, d: Id, doc0: Document, doc: Document, chunks: seq<Chunker.Chunk>,
                       vectors: seq<Vector>)
    requires SameDocument(doc0, doc)
    ensures ChunkTableIs(table, d, doc0, chunks, vectors) <==> ChunkTableIs(table, d, doc, chunks, vectors)
  {}

  /** What the invariant says of the tables of a finished job is what they show. */
  lemma SettledShows(cfg: Config, db: Db, j: Id, d: Id, doc0: Document, outs: seq<Output>)
    requires Possible(cfg, d, outs) && |outs| == STEPS && d in db.docs && SameDocument(doc0, db.docs[d])
    ensures outs[0].SessionOutput? && outs[1].OcrOutput? && outs[4].VectorsOutput?
    ensures Settled(cfg, SliceOf(db, j, d), d, doc0, outs) <==>
            Shows(cfg, db, d, outs[0].session, outs[1].markdown, outs[1].images, outs[4].vectors)
  {
    Shapes(cfg, d, outs);
    PayloadsAre(cfg, outs);
    SliceIs(db, j, d);
    hide Possible, SliceOf, OwnRows, Numbered, RowsAre, ChunkTableIs, ChunkRows, SessionOf, MarkdownOf, ImagesOf,
        VectorsOf, ParsedOf, ChunksOf, PagesOf;
    var chunks, vectors := ChunksOf(cfg, outs), VectorsOf(outs);
    OwnNumbered(db.pages, d, PagesOf(cfg, outs));
    OwnNumbered(db.assets, d, ImagesOf(outs));
    if |chunks| == |vectors| {
      OwnNumbered(db.chunks, d, ChunkRows(doc0, chunks, vectors));
      ChunkRowsAre(db.chunks, d, doc0, chunks, vectors);
      SameChunkTable(db.chunks, d, doc0, db.docs[d], chunks, vectors);
    }
    ChunkTableCounts(db.chunks, d, db.docs[d], chunks, vectors);
  }

  lemma ChunkTableCounts(table: map<RowKey, ChunkRow>, d: Id, doc: Document, chunks: seq<Chunker.Chunk>,
                         vectors: seq<Vector>)
    ensures ChunkTableIs(table, d, doc, chunks, vectors) ==> |chunks| == |vectors|
  {}

  // ---------- by the receipts ----------

  /** The job has a receipt for the step, and any it has says `out`. */
  ghost predicate ReceiptIs(db: Db, j: Id, step: Step, out: Output) {
    && (exists k :: k in db.receipts && k.job == j && k.step == step)
    && forall k | k in db.receipts && k.job == j && k.step == step :: db.receipts[k] == out
  }

  /** What the OCR service and the embedding model have answered, by the job's receipts. */
  ghost predicate Answered(db: Db, j: Id, session: string, markdown: string, images: seq<Asset>, vectors: seq<Vector>) {
    && ReceiptIs(db, j, UploadToOcr, SessionOutput(session))
    && ReceiptIs(db, j, PollAndFetchOcr, OcrOutput(markdown, images))
    && ReceiptIs(db, j, EmbedBatch, VectorsOutput(vectors))
  }

  /** The document's tables hold what the job's own receipts lead to. */
  ghost predicate ShowsReceipts(cfg: Config, db: Db, j: Id, d: Id) {
    && d in db.docs
    && exists session, markdown, images, vectors ::
         Answered(db, j, session, markdown, images, vectors) && Shows(cfg, db, d, session, markdown, images, vectors)
  }

  lemma {:induction false} OnlyReceipt(cfg: Config, j: Id, d: Id, sha256: string, outs: seq<Output>, n: nat)
    requires n < |outs| <= STEPS
    ensures forall k | k in Receipts(cfg, j, d, sha256, outs) && k.step == StepAt(n) ::
              Receipts(cfg, j, d, sha256, outs)[k] == outs[n]
    ensures forall k | k in Receipts(cfg, j, d, sha256, outs) :: k.job == j
  {
    hide InputOf;
    var before := outs[..|outs| - 1];
    if n < |before| {
      OnlyReceipt(cfg, j, d, sha256, before, n);
      StepsDiffer(n, |before|);
    } else {
      NoReceiptPast(cfg, j, d, sha256, before, n);
      ReceiptsOfJob(cfg, j, d, sha256, before);
    }
  }

  lemma {:induction false} ReceiptsOfJob(cfg: Config, j: Id, d: Id, sha256: string, outs: seq<Output>)
    ensures forall k | k in Receipts(cfg, j, d, sha256, outs) :: k.job == j
  {
    hide InputOf;
    if outs != [] {
      ReceiptsOfJob(cfg, j, d, sha256, outs[..|outs| - 1]);
    }
  }

  lemma ReceiptAt(cfg: Config, db: Db, j: Id, d: Id, sha256: string, outs: seq<Output>, n: nat)
    requires ReceiptsFor(db.receipts, j) == Receipts(cfg, j, d, sha256, outs) && n < |outs| <= STEPS
    ensures ReceiptIs(db, j, StepAt(n), outs[n])
  {
    ReceiptFound(cfg, j, d, sha256, outs, n);
    OnlyReceipt(cfg, j, d, sha256, outs, n);
    var key := KeyOf(cfg, j, d, sha256, outs[..n]);
    assert key in ReceiptsFor(db.receipts, j) && key.step == StepAt(n);
    hide Receipts, InputOf;
    forall k | k in db.receipts && k.job == j && k.step == StepAt(n) ensures db.receipts[k] == outs[n] {
      assert k in ReceiptsFor(db.receipts, j);
    }
  }

  lemma AnsweredOnce(db: Db, j: Id, s1: string, m1: string, i1: seq<Asset>, v1: seq<Vector>,
                     s2: string, m2: string, i2: seq<Asset>, v2: seq<Vector>)
    requires Answered(db, j, s1, m1, i1, v1) && Answered(db, j, s2, m2, i2, v2)
    ensures s1 == s2 && m1 == m2 && i1 == i2 && v1 == v2
  {
    OneReceipt(db, j, UploadToOcr, SessionOutput(s1), SessionOutput(s2));
    OneReceipt(db, j, PollAndFetchOcr, OcrOutput(m1, i1), OcrOutput(m2, i2));
    OneReceipt(db, j, EmbedBatch, VectorsOutput(v1), VectorsOutput(v2));
  }

  lemma OneReceipt(db: Db, j: Id, step: Step, a: Output, b: Output)
    requires ReceiptIs(db, j, step, a) && ReceiptIs(db, j, step, b)
    ensures a == b
  {}

  /** For a finished job, the invariant on the tables and what the receipts lead to are one. */
  lemma HealthyShows(cfg: Config, s: Sys, j: Id, d: Id, doc0: Document, outs: seq<Output>)
    requires Healthy(cfg, s, j, d, doc0, outs) && |outs| == STEPS
    ensures Settled(cfg, SliceOf(s.db, j, d), d, doc0, outs) <==> ShowsReceipts(cfg, s.db, j, d)
  {
    HealthyFacts(cfg, s, j, d, doc0, outs);
    GoodPlace(cfg, s, j, d, doc0, outs);
    ShortList(cfg, s, j, d, doc0, outs);
    SettledShows(cfg, s.db, j, d, doc0, outs);
    ReceiptAt(cfg, s.db, j, d, doc0.sha256, outs, 0);
    ReceiptAt(cfg, s.db, j, d, doc0.sha256, outs, 1);
    ReceiptAt(cfg, s.db, j, d, doc0.sha256, outs, 4);
    hide Healthy, Settled, SliceOf, Shows, ReceiptIs, Receipts, ReceiptsFor, Possible;
    assert outs[1] == OcrOutput(outs[1].markdown, outs[1].images);
    assert Answered(s.db, j, outs[0].session, outs[1].markdown, outs[1].images, outs[4].vectors);
    hide Answered;
    if ShowsReceipts(cfg, s.db, j, d) {
      var session, markdown, images, vectors :|
        Answered(s.db, j, session, markdown, images, vectors) && Shows(cfg, s.db, d, session, markdown, images, vectors);
      AnsweredOnce(s.db, j, session, markdown, images, vectors, outs[0].session, outs[1].markdown, outs[1].images,
                   outs[4].vectors);
    }
  }

  /** In every run: once the job has all its receipts, the tables hold row by row what these lead
      to, exactly if the last commit of each table was right. */
  lemma TablesShowReceipts(cfg: Config, s0: Sys, events: seq<Event>, j: Id, d: Id)
    requires Submitted(s0, j, d) && d in Run(cfg, s0, events).db.docs && |Committed(cfg, s0, events, j)| == STEPS
    ensures var doc0, outs := SubmittedDocument(s0, j, d), Committed(cfg, s0, events, j);
            var shows := ShowsReceipts(cfg, Run(cfg, s0, events).db, j, d);
            && (AllLastRight(cfg, s0, events, j, d, doc0, outs) ==> shows)
            && (KbColumns(s0, d) && shows ==> AllLastRight(cfg, s0, events, j, d, doc0, outs))
            && (Undisturbed(cfg, s0, events, j, d) ==> shows)
  {
    hide Run, Committed, AllLastRight, KbColumns, Undisturbed, Submitted, Settled, SliceOf, ShowsReceipts, Healthy,
        SubmittedDocument;
    TablesExactly(cfg, s0, events, j, d);
    var outs := RunKeeps(cfg, s0, events, j, d);
    SubmittedDocIs(s0, j, d);
    HealthyShows(cfg, Run(cfg, s0, events), j, d, SubmittedDocument(s0, j, d), Committed(cfg, s0, events, j));
  }
}
