/** Crash refinement: whatever happens to the attempts of a job, its receipts stay a prefix of
    the pipeline, no committed step runs again, and success leaves exactly what one
    uninterrupted run would have left. */
module IngestRefinement {
  import opened Wrappers
  import opened Tables
  import opened Deletion
  import opened Ingest
  import opened IngestSlice
  import PageIndex

  // ---------- the receipts of a job as one list of payloads ----------

  /** The receipts a job has when its first |outs| steps are committed with these payloads. */
  ghost function Receipts(cfg: Config, j: Id, d: Id, sha256: string, outs: seq<Output>): map<ReceiptKey, Output> {
    if outs == [] then map[]
    else
      var before := outs[..|outs| - 1];
      Receipts(cfg, j, d, sha256, before)[KeyOf(cfg, j, d, sha256, before) := outs[|outs| - 1]]
  }

  /** Every payload is one its runner may return after the payloads before it. */
  ghost predicate Possible(cfg: Config, d: Id, outs: seq<Output>) {
    |outs| <= STEPS &&
    (outs == [] ||
     (Possible(cfg, d, outs[..|outs| - 1]) &&
      Runner(cfg, d, outs[..|outs| - 1], outs[|outs| - 1]) == Some(outs[|outs| - 1])))
  }

  lemma {:induction false} PossiblePrefix(cfg: Config, d: Id, outs: seq<Output>, n: nat)
    requires Possible(cfg, d, outs) && n <= |outs|
    ensures Possible(cfg, d, outs[..n])
  {
    if n == |outs| {
      assert outs[..n] == outs;
    } else {
      PossiblePrefix(cfg, d, outs[..|outs| - 1], n);
      assert outs[..|outs| - 1][..n] == outs[..n];
    }
  }

  lemma PossibleSnoc(cfg: Config, d: Id, outs: seq<Output>, out: Output)
    requires Possible(cfg, d, outs) && |outs| < STEPS && Runner(cfg, d, outs, out) == Some(out)
    ensures Possible(cfg, d, outs + [out])
  {
    assert (outs + [out])[..|outs|] == outs;
  }

  lemma ReceiptsSnoc(cfg: Config, j: Id, d: Id, sha256: string, outs: seq<Output>, out: Output)
    ensures Receipts(cfg, j, d, sha256, outs + [out]) ==
            Receipts(cfg, j, d, sha256, outs)[KeyOf(cfg, j, d, sha256, outs) := out]
  {
    assert (outs + [out])[..|outs|] == outs;
  }

  lemma StepsDiffer(a: nat, b: nat)
    requires a < b < STEPS
    ensures StepAt(a) != StepAt(b)
  {}

  /** No receipt, under whatever input, is for a step past the list. */
  lemma {:induction false} NoReceiptPast(cfg: Config, j: Id, d: Id, sha256: string, outs: seq<Output>, n: nat)
    requires |outs| <= n < STEPS
    ensures forall k | k in Receipts(cfg, j, d, sha256, outs) :: k.step != StepAt(n)
  {
    if outs != [] {
      var before := outs[..|outs| - 1];
      NoReceiptPast(cfg, j, d, sha256, before, n);
      StepsDiffer(|before|, n);
    }
  }

  /** The lookup of a step on the list finds its payload. */
  lemma {:induction false} ReceiptFound(cfg: Config, j: Id, d: Id, sha256: string, outs: seq<Output>, n: nat)
    requires n < |outs| <= STEPS
    ensures var key := KeyOf(cfg, j, d, sha256, outs[..n]);
            key in Receipts(cfg, j, d, sha256, outs) && Receipts(cfg, j, d, sha256, outs)[key] == outs[n]
  {
    var before := outs[..|outs| - 1];
    if n < |before| {
      ReceiptFound(cfg, j, d, sha256, before, n);
      assert before[..n] == outs[..n];
      StepsDiffer(n, |before|);
    }
  }

  // ---------- the invariant ----------

  ghost predicate PointOk(cfg: Config, d: Id, at: Point, mem: seq<Output>, outs: seq<Output>) {
    match at
    case Check(phase) => PhaseOk(phase, |mem|)
    case Exec(phase) => PhaseOk(phase, |mem|)
    case Ran(out, cached) =>
      && |mem| < STEPS - 1
      && (if |mem| < |outs| then cached && out == outs[|mem|]
          else !cached && Runner(cfg, d, mem, out) == Some(out))
  }

  predicate PhaseOk(phase: Phase, n: nat) {
    match phase
    case Begin => n == 0
    case Mark => n == 2 || n == 5
    case Do => n < STEPS
  }

  ghost predicate PcOk(cfg: Config, d: Id, pc: Pc, doc0: Document, outs: seq<Output>) {
    match pc
    case Live(at, snap, mem) => SameDocument(doc0, snap) && mem <= outs && PointOk(cfg, d, at, mem, outs)
    case Cancelling => false
    case _ => true
  }

  /** The receipts are the list `outs`, and the attempt's own knowledge is a prefix of it. */
  ghost predicate Good(cfg: Config, sl: Slice, pc: Pc, j: Id, d: Id, doc0: Document, outs: seq<Output>) {
    && sl.doc.Some? && SameDocument(doc0, sl.doc.value)
    && sl.job.Some? && sl.job.value.doc == d && sl.job.value.status != CancelRequested
    && (sl.job.value.status == Succeeded ==> |outs| == STEPS)
    && sl.receipts == Receipts(cfg, j, d, doc0.sha256, outs)
    && Possible(cfg, d, outs)
    && PcOk(cfg, d, pc, doc0, outs)
  }

  ghost predicate ChunksSettled(cfg: Config, chunks: map<RowKey, ChunkRow>, d: Id, doc0: Document, outs: seq<Output>) {
    5 < |outs| ==>
      && |ChunksOf(cfg, outs)| == |VectorsOf(outs)|
      && chunks == Numbered(d, ChunkRows(doc0, ChunksOf(cfg, outs), VectorsOf(outs)))
  }

  ghost predicate PagesSettled(cfg: Config, pages: map<RowKey, PageIndex.PageRow>, d: Id, outs: seq<Output>) {
    6 < |outs| ==> pages == Numbered(d, PagesOf(cfg, outs))
  }

  ghost predicate AssetsSettled(assets: map<RowKey, Asset>, d: Id, outs: seq<Output>) {
    7 < |outs| ==> assets == Numbered(d, ImagesOf(outs))
  }

  ghost predicate ResultSettled(cfg: Config, parse: Option<ParseRow>, doc: Document, outs: seq<Output>) {
    8 < |outs| ==> parse == Some(ParseRowOf(cfg, outs)) && doc.pageCount == Some(ParsedOf(cfg, outs).pageCount)
  }

  /** A document is ready only once its job is through. */
  predicate ReadyEarned(doc: Document, outs: seq<Output>) {
    doc.status == Ready ==> STEPS <= |outs|
  }

  /** The tables hold what the committed payloads say, step by step. */
  ghost predicate Settled(cfg: Config, sl: Slice, d: Id, doc0: Document, outs: seq<Output>) {
    && sl.doc.Some?
    && ChunksSettled(cfg, sl.chunks, d, doc0, outs)
    && PagesSettled(cfg, sl.pages, d, outs)
    && AssetsSettled(sl.assets, d, outs)
    && ResultSettled(cfg, sl.parse, sl.doc.value, outs)
  }

  // ---------- one step of the job itself ----------

  /** The list after a transaction that commits. */
  function Extended(tx: Tx, outs: seq<Output>): seq<Output> {
    if tx.StepTx? && !tx.cached then outs + [tx.out]
    else if tx.FinishTx? && |outs| < STEPS then outs + [tx.out]
    else outs
  }

  /** A prefix of five or more payloads already fixes the markdown, vectors and images. */
  lemma PrefixAgrees(cfg: Config, mem: seq<Output>, outs: seq<Output>)
    requires mem <= outs && 2 <= |mem|
    ensures SessionOf(mem) == SessionOf(outs) && MarkdownOf(mem) == MarkdownOf(outs) && ImagesOf(mem) == ImagesOf(outs)
    ensures ParsedOf(cfg, mem) == ParsedOf(cfg, outs) && ChunksOf(cfg, mem) == ChunksOf(cfg, outs)
    ensures 4 < |mem| ==> VectorsOf(mem) == VectorsOf(outs)
  {}

  lemma VectorsFit(cfg: Config, d: Id, outs: seq<Output>)
    requires Possible(cfg, d, outs) && 4 < |outs|
    ensures |ChunksOf(cfg, outs)| == |VectorsOf(outs)|
  {
    PossiblePrefix(cfg, d, outs, 5);
    var five := outs[..5];
    assert five[..4] == outs[..4];
    PrefixAgrees(cfg, outs[..4], outs);
  }

  lemma DeadTxKeeps(cfg: Config, sl: Slice, j: Id, d: Id, error: string, doc0: Document, outs: seq<Output>)
    requires Good(cfg, sl, DeadLettering(error), j, d, doc0, outs)
    ensures Good(cfg, SlicePerform(sl, j, d, DeadTx(error)), Ended, j, d, doc0, outs)
    ensures Settled(cfg, sl, d, doc0, outs) ==> Settled(cfg, SlicePerform(sl, j, d, DeadTx(error)), d, doc0, outs)
  {
    hide Receipts, Possible, ChunksOf, PagesOf, Cut;
  }

  lemma StatusTxKeeps(cfg: Config, sl: Slice, pc: Pc, j: Id, d: Id, doc0: Document, outs: seq<Output>)
    requires Good(cfg, sl, pc, j, d, doc0, outs) && pc.Live? && (pc.at == Exec(Begin) || pc.at == Exec(Mark))
    ensures var tx := if pc.at == Exec(Begin) then BeginTx else MarkTx(MarkStatus(|pc.mem|));
            var then_ := pc.(at := if pc.at == Exec(Begin) then Entry(0) else Check(Do));
            && Good(cfg, SlicePerform(sl, j, d, tx), then_, j, d, doc0, outs)
            && (Settled(cfg, sl, d, doc0, outs) ==> Settled(cfg, SlicePerform(sl, j, d, tx), d, doc0, outs))
  {
    hide Receipts, Possible, ChunksOf, PagesOf;
  }

  /** Committing a step: a fresh payload extends the list, a cached one is already on it. */
  lemma StepReceipts(cfg: Config, pc: Pc, j: Id, d: Id, sha256: string, doc0: Document, outs: seq<Output>)
    requires Possible(cfg, d, outs) && PcOk(cfg, d, pc, doc0, outs) && pc.Live? && pc.at.Ran?
    ensures var outs' := if pc.at.cached then outs else outs + [pc.at.out];
            && Receipts(cfg, j, d, sha256, outs') ==
               Receipted(Receipts(cfg, j, d, sha256, outs), KeyOf(cfg, j, d, sha256, pc.mem), pc.at.out, pc.at.cached)
            && Possible(cfg, d, outs') && pc.mem + [pc.at.out] <= outs'
  {
    var mem, out := pc.mem, pc.at.out;
    if |mem| < |outs| {
      assert mem + [out] <= outs;
    } else {
      assert mem == outs;
      ReceiptsSnoc(cfg, j, d, sha256, outs, out);
      PossibleSnoc(cfg, d, outs, out);
    }
    hide Receipts, Possible, Runner, InputOf, StepAt;
  }

  lemma StepTxGood(cfg: Config, sl: Slice, pc: Pc, j: Id, d: Id, doc0: Document, outs: seq<Output>, write: Write)
    requires Good(cfg, sl, pc, j, d, doc0, outs) && pc.Live? && pc.at.Ran?
    ensures var key := KeyOf(cfg, j, d, pc.snap.sha256, pc.mem);
            var tx := StepTx(key.step, key.input, pc.at.out, pc.at.cached, write);
            Good(cfg, SlicePerform(sl, j, d, tx), Live(Entry(|pc.mem| + 1), pc.snap, pc.mem + [pc.at.out]),
                 j, d, doc0, Extended(tx, outs))
  {
    hide Receipts, Possible, Runner, InputOf, StepAt, Numbered;
    StepReceipts(cfg, pc, j, d, doc0.sha256, doc0, outs);
  }

  /** The rows a step writes are the ones its payloads call for. */
  lemma WriteMatches(cfg: Config, snap: Document, doc0: Document, mem: seq<Output>, outs: seq<Output>)
    requires mem < outs && SameDocument(doc0, snap) && WriteOf(cfg, snap, mem).Some?
    ensures WriteOf(cfg, snap, mem).value ==
            if |mem| == 5 && |ChunksOf(cfg, outs)| == |VectorsOf(outs)|
            then WriteChunks(ChunkRows(doc0, ChunksOf(cfg, outs), VectorsOf(outs)))
            else if |mem| == 6 then WritePages(PagesOf(cfg, outs))
            else if |mem| == 7 then WriteAssets(ImagesOf(outs))
            else NoRows
    ensures |mem| == 5 ==> |ChunksOf(cfg, outs)| == |VectorsOf(outs)|
  {
    if 5 <= |mem| {
      PrefixAgrees(cfg, mem, outs);
      hide ChunksOf;
    }
  }

  lemma TablesAgree(cfg: Config, outs: seq<Output>, longer: seq<Output>)
    requires outs <= longer && 5 < |outs|
    ensures ChunksOf(cfg, outs) == ChunksOf(cfg, longer) && VectorsOf(outs) == VectorsOf(longer)
    ensures PagesOf(cfg, outs) == PagesOf(cfg, longer) && ImagesOf(outs) == ImagesOf(longer)
    ensures ParsedOf(cfg, outs) == ParsedOf(cfg, longer) && ParseRowOf(cfg, outs) == ParseRowOf(cfg, longer)
  {
    PrefixAgrees(cfg, outs, longer);
  }

  /** `longer` is the list once the step after `mem` is committed. */
  ghost predicate Commits(mem: seq<Output>, outs: seq<Output>, longer: seq<Output>) {
    mem < longer && outs <= longer && (longer == outs || (mem == outs && |longer| == |outs| + 1 < STEPS))
  }

  lemma ChunksSettle(cfg: Config, sl: Slice, d: Id, snap: Document, doc0: Document,
                     mem: seq<Output>, outs: seq<Output>, longer: seq<Output>)
    requires ChunksSettled(cfg, sl.chunks, d, doc0, outs) && SameDocument(doc0, snap)
    requires WriteOf(cfg, snap, mem).Some? && Commits(mem, outs, longer)
    ensures ChunksSettled(cfg, SliceWritten(sl, d, WriteOf(cfg, snap, mem).value).chunks, d, doc0, longer)
  {
    WriteMatches(cfg, snap, doc0, mem, longer);
    if 5 < |outs| {
      TablesAgree(cfg, outs, longer);
    }
    hide ChunksOf, PagesOf, VectorsOf, ImagesOf, ChunkRows, WriteOf, Numbered, SameDocument;
  }

  lemma PagesSettle(cfg: Config, sl: Slice, d: Id, snap: Document, doc0: Document,
                    mem: seq<Output>, outs: seq<Output>, longer: seq<Output>)
    requires PagesSettled(cfg, sl.pages, d, outs) && SameDocument(doc0, snap)
    requires WriteOf(cfg, snap, mem).Some? && Commits(mem, outs, longer)
    ensures PagesSettled(cfg, SliceWritten(sl, d, WriteOf(cfg, snap, mem).value).pages, d, longer)
  {
    WriteMatches(cfg, snap, doc0, mem, longer);
    if 5 < |outs| {
      TablesAgree(cfg, outs, longer);
    }
    hide ChunksOf, PagesOf, VectorsOf, ImagesOf, ChunkRows, WriteOf, Numbered, SameDocument;
  }

  lemma AssetsSettle(cfg: Config, sl: Slice, d: Id, snap: Document, doc0: Document,
                     mem: seq<Output>, outs: seq<Output>, longer: seq<Output>)
    requires AssetsSettled(sl.assets, d, outs) && SameDocument(doc0, snap)
    requires WriteOf(cfg, snap, mem).Some? && Commits(mem, outs, longer)
    ensures AssetsSettled(SliceWritten(sl, d, WriteOf(cfg, snap, mem).value).assets, d, longer)
  {
    WriteMatches(cfg, snap, doc0, mem, longer);
    if 5 < |outs| {
      TablesAgree(cfg, outs, longer);
    }
    hide ChunksOf, PagesOf, VectorsOf, ImagesOf, ChunkRows, WriteOf, Numbered, SameDocument;
  }

  lemma ResultSettles(cfg: Config, sl: Slice, d: Id, write: Write, mem: seq<Output>, outs: seq<Output>,
                      longer: seq<Output>)
    requires sl.doc.Some? && ResultSettled(cfg, sl.parse, sl.doc.value, outs) && Commits(mem, outs, longer)
    ensures SliceWritten(sl, d, write).doc == sl.doc
    ensures ResultSettled(cfg, SliceWritten(sl, d, write).parse, sl.doc.value, longer)
  {
    hide ParsedOf, ParseRowOf, Numbered;
  }

  lemma RanCommits(cfg: Config, sl: Slice, pc: Pc, j: Id, d: Id, doc0: Document, outs: seq<Output>)
    requires Good(cfg, sl, pc, j, d, doc0, outs) && pc.Live? && pc.at.Ran?
    ensures Commits(pc.mem, outs, if pc.at.cached then outs else outs + [pc.at.out]) && SameDocument(doc0, pc.snap)
  {
    hide Receipts, Possible, Runner;
  }

  lemma StepTxSettled(cfg: Config, sl: Slice, pc: Pc, j: Id, d: Id, doc0: Document, outs: seq<Output>)
    requires Good(cfg, sl, pc, j, d, doc0, outs) && pc.Live? && pc.at.Ran? && Settled(cfg, sl, d, doc0, outs)
    requires WriteOf(cfg, pc.snap, pc.mem).Some?
    ensures var key := KeyOf(cfg, j, d, pc.snap.sha256, pc.mem);
            var tx := StepTx(key.step, key.input, pc.at.out, pc.at.cached, WriteOf(cfg, pc.snap, pc.mem).value);
            Settled(cfg, SlicePerform(sl, j, d, tx), d, doc0, Extended(tx, outs))
  {
    hide SliceWritten, WriteOf, KeyOf, ChunksSettled, PagesSettled, AssetsSettled, ResultSettled, Commits,
        SameDocument, Good;
    var mem, snap := pc.mem, pc.snap;
    var outs' := if pc.at.cached then outs else outs + [pc.at.out];
    RanCommits(cfg, sl, pc, j, d, doc0, outs);
    ChunksSettle(cfg, sl, d, snap, doc0, mem, outs, outs');
    PagesSettle(cfg, sl, d, snap, doc0, mem, outs, outs');
    AssetsSettle(cfg, sl, d, snap, doc0, mem, outs, outs');
    ResultSettles(cfg, sl, d, WriteOf(cfg, snap, mem).value, mem, outs, outs');
  }

  /** The last transaction: at most the final receipt is new, and the parse result is the one
      the payloads call for. */
  lemma FinishReceipts(cfg: Config, mem: seq<Output>, outs: seq<Output>, j: Id, d: Id, sha256: string)
    requires mem <= outs && |mem| == STEPS - 1 && Possible(cfg, d, outs)
    ensures var key, out := KeyOf(cfg, j, d, sha256, mem), ReadyOutput(d);
            var receipts := Receipts(cfg, j, d, sha256, outs);
            var outs' := if |outs| < STEPS then outs + [out] else outs;
            && Possible(cfg, d, outs') && |outs'| == STEPS && mem <= outs'
            && (key in receipts <==> |outs| == STEPS)
            && Receipts(cfg, j, d, sha256, outs') == Receipted(receipts, key, out, key in receipts)
  {
    LengthIs(cfg, d, outs);
    LastStep(cfg, j, d, sha256, mem);
    hide Receipts, Possible, KeyOf, Runner, StepAt;
    if |outs| == STEPS {
      assert mem == outs[..STEPS - 1];
      ReceiptFound(cfg, j, d, sha256, outs, STEPS - 1);
    } else {
      assert mem == outs;
      NoReceiptPast(cfg, j, d, sha256, outs, STEPS - 1);
      PossibleSnoc(cfg, d, outs, ReadyOutput(d));
      ReceiptsSnoc(cfg, j, d, sha256, outs, ReadyOutput(d));
    }
  }

  lemma LengthIs(cfg: Config, d: Id, outs: seq<Output>)
    requires Possible(cfg, d, outs)
    ensures |outs| <= STEPS
  {}

  lemma LastStep(cfg: Config, j: Id, d: Id, sha256: string, mem: seq<Output>)
    requires |mem| == STEPS - 1
    ensures KeyOf(cfg, j, d, sha256, mem).step == StepAt(STEPS - 1) == Finalize
    ensures KeyOf(cfg, j, d, sha256, mem).job == j
    ensures Runner(cfg, d, mem, ReadyOutput(d)) == Some(ReadyOutput(d))
  {
    hide InputOf;
  }

  lemma FinishTxGood(cfg: Config, sl: Slice, pc: Pc, j: Id, d: Id, doc0: Document, outs: seq<Output>, parse: ParseRow)
    requires Good(cfg, sl, pc, j, d, doc0, outs) && pc.Live? && pc.at == Exec(Do) && |pc.mem| == STEPS - 1
    ensures var tx := FinishTx(KeyOf(cfg, j, d, pc.snap.sha256, pc.mem).input, ReadyOutput(d), parse);
            Good(cfg, SlicePerform(sl, j, d, tx), Ended, j, d, doc0, Extended(tx, outs))
  {
    hide Receipts, Possible, KeyOf, ParsedOf, StepAt, Runner;
    FinishReceipts(cfg, pc.mem, outs, j, d, doc0.sha256);
    LastStep(cfg, j, d, doc0.sha256, pc.mem);
  }

  lemma TablesStaySettled(cfg: Config, sl: Slice, d: Id, doc0: Document, outs: seq<Output>, longer: seq<Output>)
    requires ChunksSettled(cfg, sl.chunks, d, doc0, outs) && PagesSettled(cfg, sl.pages, d, outs)
    requires AssetsSettled(sl.assets, d, outs) && outs <= longer && 7 < |outs|
    ensures ChunksSettled(cfg, sl.chunks, d, doc0, longer) && PagesSettled(cfg, sl.pages, d, longer)
    ensures AssetsSettled(sl.assets, d, longer)
  {
    TablesAgree(cfg, outs, longer);
    hide ChunksOf, PagesOf, VectorsOf, ImagesOf, ChunkRows, Numbered;
  }

  lemma FinishTxSettled(cfg: Config, sl: Slice, pc: Pc, j: Id, d: Id, doc0: Document, outs: seq<Output>)
    requires Good(cfg, sl, pc, j, d, doc0, outs) && pc.Live? && pc.at == Exec(Do) && |pc.mem| == STEPS - 1
    requires Settled(cfg, sl, d, doc0, outs)
    ensures var tx := FinishTx(KeyOf(cfg, j, d, pc.snap.sha256, pc.mem).input, ReadyOutput(d), ParseRowOf(cfg, pc.mem));
            Settled(cfg, SlicePerform(sl, j, d, tx), d, doc0, Extended(tx, outs))
  {
    hide Good, Receipted, KeyOf, ParsedOf, ParseRowOf, ChunksOf, PagesOf, ChunksSettled, PagesSettled, AssetsSettled;
    LastMem(cfg, sl, pc, j, d, doc0, outs);
    var mem := pc.mem;
    var outs' := if |outs| < STEPS then outs + [ReadyOutput(d)] else outs;
    TablesAgree(cfg, mem, outs');
    TablesStaySettled(cfg, sl, d, doc0, outs, outs');
  }

  lemma LastMem(cfg: Config, sl: Slice, pc: Pc, j: Id, d: Id, doc0: Document, outs: seq<Output>)
    requires Good(cfg, sl, pc, j, d, doc0, outs) && pc.Live?
    ensures pc.mem <= outs && |outs| <= STEPS && ParseRowOf(cfg, pc.mem).outline == ParsedOf(cfg, pc.mem)
  {
    hide Receipts, ParsedOf, ChunksOf;
  }

  /** An attempt may break off anywhere. */
  lemma Interrupted(cfg: Config, sl: Slice, pc: Pc, broken: Pc, j: Id, d: Id, doc0: Document, outs: seq<Output>)
    requires Good(cfg, sl, pc, j, d, doc0, outs) && !broken.Live? && !broken.Cancelling?
    ensures Good(cfg, sl, broken, j, d, doc0, outs)
  {
    hide Receipts, Possible;
  }

  /** Whether the commit raises or not, the invariant holds afterwards. */
  ghost predicate Keeps(cfg: Config, db: Db, j: Id, d: Id, next: Decision, doc0: Document, outs: seq<Output>) {
    var was, now := SliceOf(db, j, d), SliceOf(Perform(db, j, d, next.tx), j, d);
    && next.tx != PurgeTx && next.tx != MarkTx(Deleting)
    && Good(cfg, was, next.else_, j, d, doc0, outs)
    && Good(cfg, now, next.then_, j, d, doc0, Extended(next.tx, outs))
    && (Settled(cfg, was, d, doc0, outs) ==> Settled(cfg, now, d, doc0, Extended(next.tx, outs)))
  }

  /** A step taken by the job's own attempt. */
  lemma OwnStep(cfg: Config, db: Db, j: Id, d: Id, pc: Pc, choice: Output, doc0: Document, outs: seq<Output>)
    requires Good(cfg, SliceOf(db, j, d), pc, j, d, doc0, outs)
    ensures Keeps(cfg, db, j, d, Next(cfg, db, j, d, pc, choice), doc0, outs)
  {
    var sl, next := SliceOf(db, j, d), Next(cfg, db, j, d, pc, choice);
    assert j in db.jobs && d in db.docs && !CancelledOrDeleted(db, j, d);
    hide Receipts, Possible;
    match pc
    case Live(_, _, _) =>
      hide Keeps, Good, NextLive, CancelledOrDeleted;
      OwnLiveStep(cfg, db, j, d, pc, choice, doc0, outs);
    case DeadLettering(error) =>
      OwnTx(db, j, d, next.tx);
      DeadTxKeeps(cfg, sl, j, d, error, doc0, outs);
      hide SlicePerform, Perform, SliceOf, Settled;
    case _ =>
      hide SliceOf, Settled, Perform;
      NothingDone(db, j, d);
  }

  lemma NothingDone(db: Db, j: Id, d: Id)
    ensures Perform(db, j, d, NoTx) == db
  {}

  lemma OwnLiveStep(cfg: Config, db: Db, j: Id, d: Id, pc: Pc, choice: Output, doc0: Document, outs: seq<Output>)
    requires Good(cfg, SliceOf(db, j, d), pc, j, d, doc0, outs) && pc.Live? && !CancelledOrDeleted(db, j, d)
    ensures Keeps(cfg, db, j, d, NextLive(cfg, db, j, d, pc, choice), doc0, outs)
  {
    hide Keeps, Good, NextLive, CancelledOrDeleted, SliceOf;
    match pc.at
    case Check(_) => OwnCheck(cfg, db, j, d, pc, choice, doc0, outs);
    case Exec(Do) =>
      if |pc.mem| == STEPS - 1 {
        OwnFinish(cfg, db, j, d, pc, choice, doc0, outs);
      } else {
        ShortMem(cfg, SliceOf(db, j, d), pc, j, d, doc0, outs);
        OwnExec(cfg, db, j, d, pc, choice, doc0, outs);
      }
    case Exec(_) => OwnStatus(cfg, db, j, d, pc, choice, doc0, outs);
    case Ran(_, _) => OwnCommit(cfg, db, j, d, pc, choice, doc0, outs);
  }

  lemma ShortMem(cfg: Config, sl: Slice, pc: Pc, j: Id, d: Id, doc0: Document, outs: seq<Output>)
    requires Good(cfg, sl, pc, j, d, doc0, outs) && pc.Live? && pc.at == Exec(Do)
    ensures |pc.mem| < STEPS
  {}

  lemma OwnCheck(cfg: Config, db: Db, j: Id, d: Id, pc: Pc, choice: Output, doc0: Document, outs: seq<Output>)
    requires Good(cfg, SliceOf(db, j, d), pc, j, d, doc0, outs) && pc.Live? && pc.at.Check? && !CancelledOrDeleted(db, j, d)
    ensures Keeps(cfg, db, j, d, NextLive(cfg, db, j, d, pc, choice), doc0, outs)
  {
    hide SliceOf, Settled, Perform, Receipts, Possible, CancelledOrDeleted;
    NothingDone(db, j, d);
  }

  lemma OwnStatus(cfg: Config, db: Db, j: Id, d: Id, pc: Pc, choice: Output, doc0: Document, outs: seq<Output>)
    requires Good(cfg, SliceOf(db, j, d), pc, j, d, doc0, outs) && pc.Live? && !CancelledOrDeleted(db, j, d)
    requires pc.at == Exec(Begin) || pc.at == Exec(Mark)
    ensures Keeps(cfg, db, j, d, NextLive(cfg, db, j, d, pc, choice), doc0, outs)
  {
    var next := NextLive(cfg, db, j, d, pc, choice);
    OwnTx(db, j, d, next.tx);
    Interrupted(cfg, SliceOf(db, j, d), pc, next.else_, j, d, doc0, outs);
    StatusTxKeeps(cfg, SliceOf(db, j, d), pc, j, d, doc0, outs);
    hide SlicePerform, Perform, SliceOf, Receipts, Possible, Settled, Entry, CancelledOrDeleted, Good;
  }

  lemma OwnFinish(cfg: Config, db: Db, j: Id, d: Id, pc: Pc, choice: Output, doc0: Document, outs: seq<Output>)
    requires Good(cfg, SliceOf(db, j, d), pc, j, d, doc0, outs) && pc.Live? && !CancelledOrDeleted(db, j, d)
    requires pc.at == Exec(Do) && |pc.mem| == STEPS - 1
    ensures Keeps(cfg, db, j, d, NextLive(cfg, db, j, d, pc, choice), doc0, outs)
  {
    var sl, next := SliceOf(db, j, d), NextLive(cfg, db, j, d, pc, choice);
    OwnTx(db, j, d, next.tx);
    Interrupted(cfg, sl, pc, next.else_, j, d, doc0, outs);
    FinishTxGood(cfg, sl, pc, j, d, doc0, outs, ParseRowOf(cfg, pc.mem));
    if Settled(cfg, sl, d, doc0, outs) {
      FinishTxSettled(cfg, sl, pc, j, d, doc0, outs);
    }
    hide SlicePerform, Perform, SliceOf, Settled, KeyOf, ParseRowOf, Extended, CancelledOrDeleted, Good;
  }

  lemma OwnExec(cfg: Config, db: Db, j: Id, d: Id, pc: Pc, choice: Output, doc0: Document, outs: seq<Output>)
    requires Good(cfg, SliceOf(db, j, d), pc, j, d, doc0, outs) && pc.Live? && !CancelledOrDeleted(db, j, d)
    requires pc.at == Exec(Do) && |pc.mem| < STEPS - 1
    ensures Keeps(cfg, db, j, d, NextLive(cfg, db, j, d, pc, choice), doc0, outs)
  {
    LookupIs(cfg, db, j, d, pc, doc0, outs);
    RunnerResult(cfg, d, pc.mem, choice);
    NothingDone(db, j, d);
    hide SliceOf, Receipts, Possible, Runner, KeyOf, Settled, Perform, CancelledOrDeleted;
  }

  lemma OwnCommit(cfg: Config, db: Db, j: Id, d: Id, pc: Pc, choice: Output, doc0: Document, outs: seq<Output>)
    requires Good(cfg, SliceOf(db, j, d), pc, j, d, doc0, outs) && pc.Live? && pc.at.Ran? && !CancelledOrDeleted(db, j, d)
    ensures Keeps(cfg, db, j, d, NextLive(cfg, db, j, d, pc, choice), doc0, outs)
  {
    var sl, next := SliceOf(db, j, d), NextLive(cfg, db, j, d, pc, choice);
    WriteExists(cfg, pc, d, doc0, outs);
    OwnTx(db, j, d, next.tx);
    Interrupted(cfg, SliceOf(db, j, d), pc, next.else_, j, d, doc0, outs);
    StepTxGood(cfg, sl, pc, j, d, doc0, outs, WriteOf(cfg, pc.snap, pc.mem).value);
    if Settled(cfg, sl, d, doc0, outs) {
      StepTxSettled(cfg, sl, pc, j, d, doc0, outs);
    }
    hide SlicePerform, Perform, SliceOf, Receipts, Possible, Settled, KeyOf, WriteOf, Extended, Runner,
        CancelledOrDeleted, Good;
  }

  lemma LookupIs(cfg: Config, db: Db, j: Id, d: Id, pc: Pc, doc0: Document, outs: seq<Output>)
    requires Good(cfg, SliceOf(db, j, d), pc, j, d, doc0, outs) && pc.Live? && |pc.mem| < STEPS
    ensures var key := KeyOf(cfg, j, d, pc.snap.sha256, pc.mem);
            && (key in db.receipts <==> |pc.mem| < |outs|)
            && (key in db.receipts ==> db.receipts[key] == outs[|pc.mem|])
            && (key !in db.receipts ==> forall k | k in db.receipts && k.job == j :: k.step != StepAt(|pc.mem|))
  {
    var key := KeyOf(cfg, j, d, pc.snap.sha256, pc.mem);
    OwnKey(db.receipts, key);
    assert pc.mem == outs[..|pc.mem|];
    if |pc.mem| < |outs| {
      ReceiptFound(cfg, j, d, doc0.sha256, outs, |pc.mem|);
    } else {
      NoReceiptPast(cfg, j, d, doc0.sha256, outs, |pc.mem|);
      assert forall k | k in db.receipts && k.job == j :: k in ReceiptsFor(db.receipts, j);
    }
    hide Receipts, Possible, InputOf, StepAt;
  }

  lemma RunnerResult(cfg: Config, d: Id, mem: seq<Output>, choice: Output)
    ensures var out := Runner(cfg, d, mem, choice);
            out.Some? ==> Runner(cfg, d, mem, out.value) == out
  {
    hide ChunksOf, PagesOf, ParsedOf;
  }

  lemma WriteExists(cfg: Config, pc: Pc, d: Id, doc0: Document, outs: seq<Output>)
    requires Possible(cfg, d, outs) && PcOk(cfg, d, pc, doc0, outs) && pc.Live?
    ensures WriteOf(cfg, pc.snap, pc.mem).Some?
  {
    if |pc.mem| == 5 {
      VectorsFit(cfg, d, outs);
      PrefixAgrees(cfg, pc.mem, outs);
    }
    hide ChunksOf, PagesOf, Possible;
  }

  // ---------- ready ----------

  /** The job's own moves mark the document ready only with the last receipt. */
  lemma OwnReady(cfg: Config, db: Db, j: Id, d: Id, pc: Pc, choice: Output, doc0: Document, outs: seq<Output>)
    requires Good(cfg, SliceOf(db, j, d), pc, j, d, doc0, outs) && d in db.docs && ReadyEarned(db.docs[d], outs)
    ensures var tx := Next(cfg, db, j, d, pc, choice).tx;
            d in Perform(db, j, d, tx).docs ==> ReadyEarned(Perform(db, j, d, tx).docs[d], Extended(tx, outs))
  {
    hide Perform, SliceOf;
    var tx := Next(cfg, db, j, d, pc, choice).tx;
    FinishIsLast(cfg, db, j, d, pc, choice, doc0, outs);
    hide Next, Good;
    TxReady(db, j, d, tx, outs);
  }

  lemma FinishIsLast(cfg: Config, db: Db, j: Id, d: Id, pc: Pc, choice: Output, doc0: Document, outs: seq<Output>)
    requires Good(cfg, SliceOf(db, j, d), pc, j, d, doc0, outs)
    ensures var tx := Next(cfg, db, j, d, pc, choice).tx;
            (tx.FinishTx? ==> STEPS - 1 <= |outs|) && tx != MarkTx(Ready) && !tx.PurgeTx?
  {
    hide SliceOf, Receipts, Possible, KeyOf, Runner, WriteOf, ParseRowOf, CancelledOrDeleted;
  }

  lemma TxReady(db: Db, j: Id, d: Id, tx: Tx, outs: seq<Output>)
    requires d in db.docs && ReadyEarned(db.docs[d], outs)
    requires (tx.FinishTx? ==> STEPS - 1 <= |outs|) && tx != MarkTx(Ready) && !tx.PurgeTx?
    ensures d in Perform(db, j, d, tx).docs ==> ReadyEarned(Perform(db, j, d, tx).docs[d], Extended(tx, outs))
  {
    hide Replace, Receipted, Cut;
  }
}
