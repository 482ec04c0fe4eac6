/** Undisturbed attempts: one from the beginning, and one that resumes from whatever a run has
    left. */
module CleanRun {
  import opened Wrappers
  import opened Tables
  import opened Deletion
  import opened Ingest
  import opened IngestSlice
  import opened IngestRefinement
  import opened CrashRefinement
  import DeletionWins

  function Repeat(e: Event, n: nat): (events: seq<Event>)
    ensures |events| == n
  {
    if n == 0 then [] else Repeat(e, n - 1) + [e]
  }

  /** The worker's moves for step n: the check and status change before it, the step and its
      commit.  The last step commits within one move. */
  function MovesFor(n: nat): nat {
    (if n == 0 then 0 else if n == 2 || n == 5 then 3 else 1) + (if n == STEPS - 1 then 1 else 2)
  }

  /** Step after step, `all` being the payloads. */
  function StepEvents(j: Id, all: seq<Output>): seq<Event> {
    if all == [] then []
    else
      var n := |all| - 1;
      StepEvents(j, all[..n]) + Repeat(Work(j, all[n]), MovesFor(n))
  }

  /** Delivery, loading, the first check and the first commit. */
  function OpeningEvents(j: Id): seq<Event> {
    [Deliver(j)] + Repeat(Work(j, SessionOutput("")), 3)
  }

  /** An attempt that nothing disturbs. */
  function CleanEvents(j: Id, all: seq<Output>): seq<Event> {
    OpeningEvents(j) + StepEvents(j, all)
  }

  lemma {:induction false} RunAppend(cfg: Config, s: Sys, a: seq<Event>, b: seq<Event>)
    ensures Run(cfg, s, a + b) == Run(cfg, Run(cfg, s, a), b)
  {
    hide Apply;
    if b == [] {
      assert a + b == a;
    } else {
      var n := |b| - 1;
      RunAppend(cfg, s, a, b[..n]);
      assert (a + b)[..|a + b| - 1] == a + b[..n];
    }
  }

  /** k moves of the worker of j. */
  ghost function Moved(cfg: Config, s: Sys, j: Id, choice: Output, k: nat): Sys {
    Run(cfg, s, Repeat(Work(j, choice), k))
  }

  lemma MovedNone(cfg: Config, s: Sys, j: Id, choice: Output)
    ensures Moved(cfg, s, j, choice, 0) == s
  {
    hide Apply;
  }

  lemma MovedOnce(cfg: Config, s: Sys, j: Id, choice: Output, k: nat)
    requires j in Moved(cfg, s, j, choice, k).workers
    ensures Moved(cfg, s, j, choice, k + 1) == WorkStep(cfg, Moved(cfg, s, j, choice, k), j, choice)
  {
    var e := Work(j, choice);
    assert Repeat(e, k + 1)[..k] == Repeat(e, k);
    hide WorkStep;
  }

  // ---------- where the attempt stands ----------

  /** The payloads whose rows the attempt itself has written, whoever else wrote before it. */
  function Passed(pc: Pc, outs: seq<Output>): seq<Output> {
    match pc
    case Live(_, _, mem) => mem
    case Ended => outs
    case _ => []
  }

  ghost predicate Standing(cfg: Config, s: Sys, j: Id, d: Id, doc0: Document, outs: seq<Output>, pc: Pc) {
    && Healthy(cfg, s, j, d, doc0, outs) && Settled(cfg, SliceOf(s.db, j, d), d, doc0, Passed(pc, outs))
    && s.workers[j].pc == pc
    && (cfg.fk ==> doc0.kb in s.db.kbs)
  }

  lemma NothingPassed(cfg: Config, sl: Slice, d: Id, doc0: Document)
    requires sl.doc.Some?
    ensures Settled(cfg, sl, d, doc0, [])
  {}

  lemma StatusPassed(cfg: Config, sl: Slice, j: Id, d: Id, tx: Tx, doc0: Document, mem: seq<Output>)
    requires sl.doc.Some? && sl.job.Some? && Settled(cfg, sl, d, doc0, mem) && (tx.BeginTx? || tx.MarkTx?)
    ensures Settled(cfg, SlicePerform(sl, j, d, tx), d, doc0, mem)
  {
    hide ChunksSettled, PagesSettled, AssetsSettled, ParsedOf, ParseRowOf;
  }

  /** A step writes its rows whether its payload is new or was committed by an earlier attempt. */
  lemma StepPassed(cfg: Config, sl: Slice, d: Id, snap: Document, doc0: Document, mem: seq<Output>, out: Output,
                   receipts: map<ReceiptKey, Output>)
    requires Settled(cfg, sl, d, doc0, mem) && SameDocument(doc0, snap) && |mem| < STEPS - 1
    requires WriteOf(cfg, snap, mem).Some?
    ensures var write := WriteOf(cfg, snap, mem).value;
            Settled(cfg, SliceWritten(sl, d, write).(receipts := receipts), d, doc0, mem + [out])
  {
    hide SliceWritten, WriteOf, ChunksSettled, PagesSettled, AssetsSettled, ResultSettled, SameDocument;
    var longer := mem + [out];
    ChunksSettle(cfg, sl, d, snap, doc0, mem, mem, longer);
    PagesSettle(cfg, sl, d, snap, doc0, mem, mem, longer);
    AssetsSettle(cfg, sl, d, snap, doc0, mem, mem, longer);
    ResultSettles(cfg, sl, d, WriteOf(cfg, snap, mem).value, mem, mem, longer);
  }

  lemma FinishPassed(cfg: Config, sl: Slice, j: Id, d: Id, tx: Tx, doc0: Document, mem: seq<Output>, outs: seq<Output>)
    requires sl.doc.Some? && sl.job.Some? && Settled(cfg, sl, d, doc0, mem) && |mem| == STEPS - 1 && mem < outs
    requires tx.FinishTx? && tx.parse == ParseRowOf(cfg, mem)
    ensures Settled(cfg, SlicePerform(sl, j, d, tx), d, doc0, outs)
  {
    hide Receipted, ChunksOf, PagesOf, ChunksSettled, PagesSettled, AssetsSettled;
    TablesAgree(cfg, mem, outs);
    TablesStaySettled(cfg, sl, d, doc0, mem, outs);
    ParseOutlineIs(cfg, mem);
    hide ParsedOf, ParseRowOf;
  }

  lemma ParseOutlineIs(cfg: Config, mem: seq<Output>)
    ensures ParseRowOf(cfg, mem).outline == ParsedOf(cfg, mem)
  {
    hide ParsedOf, ChunksOf;
  }

  /** What the attempt has written stays right through its own next move. */
  ghost predicate KeepsPassed(cfg: Config, db: Db, j: Id, d: Id, pc: Pc, next: Decision, doc0: Document,
                              outs: seq<Output>) {
    Settled(cfg, SliceOf(db, j, d), d, doc0, Passed(pc, outs)) ==>
      Settled(cfg, SliceOf(Perform(db, j, d, next.tx), j, d), d, doc0, Passed(next.then_, Extended(next.tx, outs)))
  }

  lemma OwnPassed(cfg: Config, db: Db, j: Id, d: Id, pc: Pc, choice: Output, doc0: Document, outs: seq<Output>)
    requires Good(cfg, SliceOf(db, j, d), pc, j, d, doc0, outs) && (pc.Start? || pc.Live?)
    ensures KeepsPassed(cfg, db, j, d, pc, Next(cfg, db, j, d, pc, choice), doc0, outs)
  {
    hide Good, SliceOf, Next, KeepsPassed, CancelledOrDeleted, PcOk, Possible;
    GoodHere(cfg, db, pc, j, d, doc0, outs);
    if pc.Live? && pc.at.Ran? {
      CommitPassed(cfg, db, j, d, pc, choice, doc0, outs);
    } else if pc.Live? && pc.at == Exec(Do) && |pc.mem| >= STEPS - 1 {
      LastPassed(cfg, db, j, d, pc, choice, doc0, outs);
    } else if pc.Live? && (pc.at == Exec(Begin) || pc.at == Exec(Mark)) {
      MarkPassed(cfg, db, j, d, pc, choice, doc0, outs);
    } else {
      if pc.Live? && pc.at.Exec? {
        assert pc.at.phase.Begin? || pc.at.phase.Mark? || pc.at.phase.Do?;
      }
      ReadPassed(cfg, db, j, d, pc, choice, doc0, outs);
    }
  }

  lemma ReadPassed(cfg: Config, db: Db, j: Id, d: Id, pc: Pc, choice: Output, doc0: Document, outs: seq<Output>)
    requires SliceOf(db, j, d).doc.Some? && j in db.jobs && d in db.docs && !CancelledOrDeleted(db, j, d)
    requires pc.Start? || (pc.Live? && (pc.at.Check? || (pc.at.Exec? && pc.at.phase.Do? && |pc.mem| < STEPS - 1)))
    ensures KeepsPassed(cfg, db, j, d, pc, Next(cfg, db, j, d, pc, choice), doc0, outs)
  {
    hide Settled, Perform, SliceOf, CancelledOrDeleted, NextLive;
    NothingDone(db, j, d);
    NothingPassed(cfg, SliceOf(db, j, d), d, doc0);
    if pc.Live? {
      NextReads(cfg, db, j, d, pc, choice);
    }
  }

  lemma GoodHere(cfg: Config, db: Db, pc: Pc, j: Id, d: Id, doc0: Document, outs: seq<Output>)
    requires Good(cfg, SliceOf(db, j, d), pc, j, d, doc0, outs)
    ensures j in db.jobs && d in db.docs && !CancelledOrDeleted(db, j, d)
    ensures SliceOf(db, j, d).doc.Some? && SliceOf(db, j, d).job.Some?
    ensures PcOk(cfg, d, pc, doc0, outs) && Possible(cfg, d, outs)
  {
    hide PcOk, Receipts, Possible;
  }

  lemma NextReads(cfg: Config, db: Db, j: Id, d: Id, pc: Pc, choice: Output)
    requires pc.Live? && (pc.at.Check? || (pc.at == Exec(Do) && |pc.mem| < STEPS - 1)) && !CancelledOrDeleted(db, j, d)
    ensures var next := Next(cfg, db, j, d, pc, choice);
            && next.tx == NoTx && (next.then_.Failing? || (next.then_.Live? && next.then_.mem == pc.mem))
  {
    hide KeyOf, Runner, CancelledOrDeleted;
  }

  lemma MarkPassed(cfg: Config, db: Db, j: Id, d: Id, pc: Pc, choice: Output, doc0: Document, outs: seq<Output>)
    requires j in db.jobs && d in db.docs && pc.Live? && (pc.at == Exec(Begin) || pc.at == Exec(Mark))
    ensures KeepsPassed(cfg, db, j, d, pc, Next(cfg, db, j, d, pc, choice), doc0, outs)
  {
    var next := Next(cfg, db, j, d, pc, choice);
    OwnTx(db, j, d, next.tx);
    SliceThere(db, j, d);
    hide SliceOf, Settled, Perform, SlicePerform;
    if Settled(cfg, SliceOf(db, j, d), d, doc0, pc.mem) {
      StatusPassed(cfg, SliceOf(db, j, d), j, d, next.tx, doc0, pc.mem);
    }
  }

  lemma SliceThere(db: Db, j: Id, d: Id)
    requires j in db.jobs && d in db.docs
    ensures SliceOf(db, j, d).doc.Some? && SliceOf(db, j, d).job.Some?
  {
    hide OwnRows, ReceiptsFor;
  }

  lemma CommitPassed(cfg: Config, db: Db, j: Id, d: Id, pc: Pc, choice: Output, doc0: Document, outs: seq<Output>)
    requires j in db.jobs && d in db.docs && PcOk(cfg, d, pc, doc0, outs) && Possible(cfg, d, outs)
    requires pc.Live? && pc.at.Ran?
    ensures KeepsPassed(cfg, db, j, d, pc, Next(cfg, db, j, d, pc, choice), doc0, outs)
  {
    hide SliceOf, Settled, Perform, Possible, Runner, WriteOf, Next, KeyOf, SliceWritten, Entry, Extended;
    var next := Next(cfg, db, j, d, pc, choice);
    WriteExists(cfg, pc, d, doc0, outs);
    NextCommit(cfg, db, j, d, pc, choice);
    OwnTx(db, j, d, next.tx);
    SliceThere(db, j, d);
    var sl := SliceOf(db, j, d);
    if Settled(cfg, sl, d, doc0, pc.mem) {
      StepPassed(cfg, sl, d, pc.snap, doc0, pc.mem, pc.at.out,
                 Receipted(sl.receipts, ReceiptKey(j, next.tx.step, next.tx.input), pc.at.out, pc.at.cached));
    }
    hide Receipted;
  }

  lemma LastPassed(cfg: Config, db: Db, j: Id, d: Id, pc: Pc, choice: Output, doc0: Document, outs: seq<Output>)
    requires j in db.jobs && d in db.docs && !CancelledOrDeleted(db, j, d)
    requires PcOk(cfg, d, pc, doc0, outs) && Possible(cfg, d, outs)
    requires pc.Live? && pc.at == Exec(Do) && |pc.mem| >= STEPS - 1
    ensures KeepsPassed(cfg, db, j, d, pc, Next(cfg, db, j, d, pc, choice), doc0, outs)
  {
    hide SliceOf, Settled, Perform, Possible, Next, KeyOf, ParseRowOf, CancelledOrDeleted, SlicePerform;
    var next := Next(cfg, db, j, d, pc, choice);
    NextFinish(cfg, db, j, d, pc, choice);
    OwnTx(db, j, d, next.tx);
    SliceThere(db, j, d);
    LengthAtMost(cfg, d, outs);
    var longer := Extended(next.tx, outs);
    assert pc.mem < longer;
    if Settled(cfg, SliceOf(db, j, d), d, doc0, pc.mem) {
      FinishPassed(cfg, SliceOf(db, j, d), j, d, next.tx, doc0, pc.mem, longer);
    }
  }

  lemma Move(cfg: Config, s: Sys, j: Id, choice: Output, d: Id, doc0: Document, outs: seq<Output>, pc: Pc)
    requires Standing(cfg, s, j, d, doc0, outs, pc) && (pc.Start? || pc.Live?)
    requires !Fails(cfg.fk, s.db, j, d, Next(cfg, s.db, j, d, pc, choice).tx)
    ensures var next := Next(cfg, s.db, j, d, pc, choice);
            var after := WorkStep(cfg, s, j, choice);
            && Standing(cfg, after, j, d, doc0, Extended(next.tx, outs), next.then_)
            && after.db == Perform(s.db, j, d, next.tx)
  {
    hide Good, Settled, SliceOf, Perform, Next, Fails, Passed, Extended;
    var next := Next(cfg, s.db, j, d, pc, choice);
    OwnStep(cfg, s.db, j, d, pc, choice, doc0, outs);
    OwnPassed(cfg, s.db, j, d, pc, choice, doc0, outs);
    KbsKept(s.db, j, d, next.tx);
  }

  lemma KbsKept(db: Db, j: Id, d: Id, tx: Tx)
    ensures Perform(db, j, d, tx).kbs == db.kbs
  {
    hide Replace, Receipted, DropDocs, DropJobs, DropReceipts, DropRows, DropParses, DropCitations, JobsOf;
  }

  lemma MoveStart(cfg: Config, s: Sys, j: Id, choice: Output, d: Id, doc0: Document, outs: seq<Output>)
    requires Standing(cfg, s, j, d, doc0, outs, Start)
    ensures d in s.db.docs
    ensures Standing(cfg, WorkStep(cfg, s, j, choice), j, d, doc0, outs, Live(Check(Begin), s.db.docs[d], []))
  {
    GoodPlace(cfg, s, j, d, doc0, outs);
    Move(cfg, s, j, choice, d, doc0, outs, Start);
    hide Standing, WorkStep, SliceOf, Perform, Healthy;
  }

  lemma MoveCheck(cfg: Config, s: Sys, j: Id, choice: Output, d: Id, doc0: Document, outs: seq<Output>, pc: Pc)
    requires Standing(cfg, s, j, d, doc0, outs, pc) && pc.Live? && pc.at.Check?
    ensures Standing(cfg, WorkStep(cfg, s, j, choice), j, d, doc0, outs, pc.(at := Exec(pc.at.phase)))
  {
    GoodPlace(cfg, s, j, d, doc0, outs);
    Move(cfg, s, j, choice, d, doc0, outs, pc);
    hide Standing, WorkStep, SliceOf, Perform, Healthy, CancelledOrDeleted;
  }

  lemma MoveStatus(cfg: Config, s: Sys, j: Id, choice: Output, d: Id, doc0: Document, outs: seq<Output>, pc: Pc)
    requires Standing(cfg, s, j, d, doc0, outs, pc) && pc.Live? && (pc.at == Exec(Begin) || pc.at == Exec(Mark))
    ensures Standing(cfg, WorkStep(cfg, s, j, choice), j, d, doc0, outs,
                     pc.(at := if pc.at == Exec(Begin) then Entry(0) else Check(Do)))
  {
    GoodPlace(cfg, s, j, d, doc0, outs);
    Move(cfg, s, j, choice, d, doc0, outs, pc);
    hide Standing, WorkStep, SliceOf, Perform, Healthy;
  }

  /** The receipts when the attempt has n payloads of `all` and k were committed before it. */
  function Have(all: seq<Output>, k: nat, n: nat): seq<Output>
    requires k <= |all| && n <= |all|
  {
    if k < n then all[..n] else all[..k]
  }

  lemma {:induction false} PossibleRunner(cfg: Config, d: Id, all: seq<Output>, n: nat)
    requires Possible(cfg, d, all) && n < |all|
    ensures n < STEPS && Runner(cfg, d, all[..n], all[n]) == Some(all[n])
  {
    PossiblePrefix(cfg, d, all, n + 1);
    assert all[..n + 1][..n] == all[..n];
    hide Runner;
  }

  /** The lookup hits the steps committed before, the runner is called for the others. */
  lemma MoveRunner(cfg: Config, s: Sys, j: Id, choice: Output, d: Id, doc0: Document, all: seq<Output>, k: nat, n: nat,
                   pc: Pc)
    requires k <= |all| && n < |all| && n < STEPS - 1 && (n < k || Runner(cfg, d, all[..n], choice) == Some(all[n]))
    requires Standing(cfg, s, j, d, doc0, Have(all, k, n), pc) && pc.Live? && pc.at == Exec(Do) && pc.mem == all[..n]
    ensures Standing(cfg, WorkStep(cfg, s, j, choice), j, d, doc0, Have(all, k, n), pc.(at := Ran(all[n], n < k)))
  {
    var outs := Have(all, k, n);
    LookupIs(cfg, s.db, j, d, pc, doc0, outs);
    GoodPlace(cfg, s, j, d, doc0, outs);
    hide Standing, WorkStep, SliceOf, Perform, Healthy, Good, Runner, KeyOf;
    Move(cfg, s, j, choice, d, doc0, outs, pc);
  }

  lemma NextCommit(cfg: Config, db: Db, j: Id, d: Id, pc: Pc, choice: Output)
    requires pc.Live? && pc.at.Ran? && WriteOf(cfg, pc.snap, pc.mem).Some?
    ensures var key := KeyOf(cfg, j, d, pc.snap.sha256, pc.mem);
            Next(cfg, db, j, d, pc, choice) ==
            Decision(StepTx(key.step, key.input, pc.at.out, pc.at.cached, WriteOf(cfg, pc.snap, pc.mem).value),
                     Live(Entry(|pc.mem| + 1), pc.snap, pc.mem + [pc.at.out]), Failing(INTEGRITY))
            && key.job == j
  {
    hide WriteOf, InputOf, Entry;
  }

  lemma CommitSucceeds(cfg: Config, s: Sys, j: Id, choice: Output, d: Id, doc0: Document, outs: seq<Output>, pc: Pc)
    requires Standing(cfg, s, j, d, doc0, outs, pc) && pc.Live? && pc.at.Ran?
    ensures WriteOf(cfg, pc.snap, pc.mem).Some?
    ensures !Fails(cfg.fk, s.db, j, d, Next(cfg, s.db, j, d, pc, choice).tx)
  {
    hide Standing, SliceOf, Good, KeyOf, WriteOf, Settled, Next, Receipts, Possible, Entry;
    CommitFacts(cfg, s, j, d, doc0, outs, pc);
    GoodPlace(cfg, s, j, d, doc0, outs);
    LookupIs(cfg, s.db, j, d, pc, doc0, outs);
    NextCommit(cfg, s.db, j, d, pc, choice);
    if cfg.fk {
      RowsRefer(cfg, pc.snap, pc.mem, s.db.kbs.Keys);
    }
  }

  lemma CommitFacts(cfg: Config, s: Sys, j: Id, d: Id, doc0: Document, outs: seq<Output>, pc: Pc)
    requires Standing(cfg, s, j, d, doc0, outs, pc) && pc.Live? && pc.at.Ran?
    ensures cfg.fk ==> pc.snap.kb in s.db.kbs
    ensures WriteOf(cfg, pc.snap, pc.mem).Some? && |pc.mem| < STEPS - 1 && (pc.at.cached <==> |pc.mem| < |outs|)
    ensures Healthy(cfg, s, j, d, doc0, outs) && Good(cfg, SliceOf(s.db, j, d), pc, j, d, doc0, outs)
  {
    WriteExists(cfg, pc, d, doc0, outs);
    hide Receipts, Possible, Settled, WriteOf;
  }

  lemma RowsRefer(cfg: Config, snap: Document, mem: seq<Output>, kbs: set<Id>)
    requires WriteOf(cfg, snap, mem).Some? && snap.kb in kbs
    ensures var write := WriteOf(cfg, snap, mem).value;
            write.WriteChunks? ==> forall r | r in write.chunkRows :: r.kb in kbs
  {
    hide ChunksOf, PagesOf, ImagesOf;
  }

  lemma MoveCommit(cfg: Config, s: Sys, j: Id, choice: Output, d: Id, doc0: Document, all: seq<Output>, k: nat, n: nat,
                   pc: Pc)
    requires k <= |all| && n < |all|
    requires Standing(cfg, s, j, d, doc0, Have(all, k, n), pc)
    requires pc.Live? && pc.at == Ran(all[n], n < k) && pc.mem == all[..n]
    ensures Standing(cfg, WorkStep(cfg, s, j, choice), j, d, doc0, Have(all, k, n + 1),
                     Live(Entry(n + 1), pc.snap, all[..n + 1]))
  {
    hide Standing, WorkStep, Healthy, KeyOf, WriteOf, Entry, Fails, Next, SliceOf, Perform;
    var outs := Have(all, k, n);
    CommitSucceeds(cfg, s, j, choice, d, doc0, outs, pc);
    NextCommit(cfg, s.db, j, d, pc, choice);
    Move(cfg, s, j, choice, d, doc0, outs, pc);
    assert all[..n] + [all[n]] == all[..n + 1];
  }

  lemma NextFinish(cfg: Config, db: Db, j: Id, d: Id, pc: Pc, choice: Output)
    requires pc.Live? && pc.at == Exec(Do) && |pc.mem| == STEPS - 1 && !CancelledOrDeleted(db, j, d)
    ensures Next(cfg, db, j, d, pc, choice) ==
            Decision(FinishTx(KeyOf(cfg, j, d, pc.snap.sha256, pc.mem).input, ReadyOutput(d), ParseRowOf(cfg, pc.mem)),
                     Ended, Failing(INTEGRITY))
  {
    hide ParseRowOf, KeyOf;
  }

  lemma FinishMarks(db: Db, j: Id, d: Id, tx: Tx)
    requires tx.FinishTx? && j in db.jobs && d in db.docs
    ensures var after := Perform(db, j, d, tx);
            && j in after.jobs && after.jobs[j].status == Succeeded
            && d in after.docs && after.docs[d].status == Ready
  {}

  lemma MoveFinish(cfg: Config, s: Sys, j: Id, choice: Output, d: Id, doc0: Document, outs: seq<Output>, pc: Pc)
    requires Standing(cfg, s, j, d, doc0, outs, pc) && pc.Live? && pc.at == Exec(Do) && |pc.mem| == STEPS - 1
    ensures var after := WorkStep(cfg, s, j, choice);
            && Standing(cfg, after, j, d, doc0, if |outs| < STEPS then outs + [ReadyOutput(d)] else outs, Ended)
            && j in after.db.jobs && after.db.jobs[j].status == Succeeded
            && d in after.db.docs && after.db.docs[d].status == Ready
  {
    hide Standing, Good, WorkStep, Perform, KeyOf, ParseRowOf, CancelledOrDeleted, SliceOf, Settled, Next;
    assert Healthy(cfg, s, j, d, doc0, outs) by { StandingHealthy(cfg, s, j, d, doc0, outs, pc); }
    hide Healthy;
    GoodPlace(cfg, s, j, d, doc0, outs);
    NextFinish(cfg, s.db, j, d, pc, choice);
    Move(cfg, s, j, choice, d, doc0, outs, pc);
    FinishMarks(s.db, j, d, Next(cfg, s.db, j, d, pc, choice).tx);
  }

  lemma StandingHealthy(cfg: Config, s: Sys, j: Id, d: Id, doc0: Document, outs: seq<Output>, pc: Pc)
    requires Standing(cfg, s, j, d, doc0, outs, pc)
    ensures Healthy(cfg, s, j, d, doc0, outs)
  {
    hide Healthy, Settled;
  }

  // ---------- step after step ----------

  /** At the entry of step n, or done. */
  ghost predicate Through(cfg: Config, s: Sys, j: Id, d: Id, doc0: Document, all: seq<Output>, k: nat, n: nat,
                          snap: Document)
    requires k <= |all| && n <= |all|
  {
    if n < STEPS then Standing(cfg, s, j, d, doc0, Have(all, k, n), Live(Entry(n), snap, all[..n]))
    else
      && Standing(cfg, s, j, d, doc0, Have(all, k, n), Ended)
      && j in s.db.jobs && s.db.jobs[j].status == Succeeded
      && d in s.db.docs && s.db.docs[d].status == Ready
  }

  /** All that happens for step n, from its entry to the entry of the next. */
  lemma OneStep(cfg: Config, s: Sys, j: Id, d: Id, doc0: Document, all: seq<Output>, k: nat, n: nat, snap: Document)
    requires Possible(cfg, d, all) && k <= |all| && n < |all| && n < STEPS
    requires Standing(cfg, s, j, d, doc0, Have(all, k, n), Live(Entry(n), snap, all[..n]))
    ensures Through(cfg, Moved(cfg, s, j, all[n], MovesFor(n)), j, d, doc0, all, k, n + 1, snap)
  {
    var outs, choice, mem := Have(all, k, n), all[n], all[..n];
    var m := MovesFor(n) - (if n == STEPS - 1 then 1 else 2);
    ToExec(cfg, s, j, choice, d, doc0, outs, snap, mem);
    hide Standing, Moved, Runner, WorkStep, MovesFor, Possible;
    var s1 := Moved(cfg, s, j, choice, m);
    Known(cfg, s1, j, d, doc0, outs, Live(Exec(Do), snap, mem));
    MovedOnce(cfg, s, j, choice, m);
    assert MovesFor(n) == m + (if n == STEPS - 1 then 1 else 2);
    if n == STEPS - 1 {
      LastIsReady(cfg, d, all, k);
      MoveFinish(cfg, s1, j, choice, d, doc0, outs, Live(Exec(Do), snap, mem));
    } else {
      PossibleRunner(cfg, d, all, n);
      MoveRunner(cfg, s1, j, choice, d, doc0, all, k, n, Live(Exec(Do), snap, mem));
      var s2 := WorkStep(cfg, s1, j, choice);
      var ran := Live(Ran(choice, n < k), snap, mem);
      Known(cfg, s2, j, d, doc0, outs, ran);
      MovedOnce(cfg, s, j, choice, m + 1);
      MoveCommit(cfg, s2, j, choice, d, doc0, all, k, n, ran);
    }
  }

  lemma LastIsReady(cfg: Config, d: Id, all: seq<Output>, k: nat)
    requires Possible(cfg, d, all) && |all| == STEPS && k <= STEPS
    ensures var outs := Have(all, k, STEPS - 1);
            Have(all, k, STEPS) == if |outs| < STEPS then outs + [ReadyOutput(d)] else outs
  {
    PossibleRunner(cfg, d, all, STEPS - 1);
    assert all[..STEPS] == all && all[..STEPS - 1] + [all[STEPS - 1]] == all;
  }

  lemma Known(cfg: Config, s: Sys, j: Id, d: Id, doc0: Document, outs: seq<Output>, pc: Pc)
    requires Standing(cfg, s, j, d, doc0, outs, pc)
    ensures j in s.workers && s.workers[j].pc == pc
  {}

  lemma ToExec(cfg: Config, s: Sys, j: Id, choice: Output, d: Id, doc0: Document, outs: seq<Output>, snap: Document,
               mem: seq<Output>)
    requires Standing(cfg, s, j, d, doc0, outs, Live(Entry(|mem|), snap, mem)) && |mem| < STEPS
    ensures var n := |mem|;
            var m := MovesFor(n) - (if n == STEPS - 1 then 1 else 2);
            Standing(cfg, Moved(cfg, s, j, choice, m), j, d, doc0, outs, Live(Exec(Do), snap, mem))
  {
    hide Standing, Moved, WorkStep;
    var n := |mem|;
    MovedNone(cfg, s, j, choice);
    if n != 0 {
      Known(cfg, s, j, d, doc0, outs, Live(Entry(n), snap, mem));
      MovedOnce(cfg, s, j, choice, 0);
      MoveCheck(cfg, s, j, choice, d, doc0, outs, Live(Entry(n), snap, mem));
      if n == 2 || n == 5 {
        var s1 := WorkStep(cfg, s, j, choice);
        Known(cfg, s1, j, d, doc0, outs, Live(Exec(Mark), snap, mem));
        MovedOnce(cfg, s, j, choice, 1);
        MoveStatus(cfg, s1, j, choice, d, doc0, outs, Live(Exec(Mark), snap, mem));
        var s2 := WorkStep(cfg, s1, j, choice);
        Known(cfg, s2, j, d, doc0, outs, Live(Check(Do), snap, mem));
        MovedOnce(cfg, s, j, choice, 2);
        MoveCheck(cfg, s2, j, choice, d, doc0, outs, Live(Check(Do), snap, mem));
      }
    }
  }

  lemma RunOne(cfg: Config, s: Sys, e: Event)
    ensures Run(cfg, s, [e]) == Apply(cfg, s, e)
  {
    hide Apply;
    assert [e][..0] == [];
  }

  /** A worker at rest, delivered, gets to its first step. */
  lemma Opening(cfg: Config, s: Sys, j: Id, d: Id, doc0: Document, outs: seq<Output>)
    requires Healthy(cfg, s, j, d, doc0, outs)
    requires (s.workers[j].pc.Idle? || s.workers[j].pc.Ended?) && (cfg.fk ==> doc0.kb in s.db.kbs)
    ensures d in s.db.docs
    ensures Standing(cfg, Run(cfg, s, OpeningEvents(j)), j, d, doc0, outs, Live(Entry(0), s.db.docs[d], []))
  {
    var x, snap := SessionOutput(""), SnapOf(s, d);
    GoodPlace(cfg, s, j, d, doc0, outs);
    RunAppend(cfg, s, [Deliver(j)], Repeat(Work(j, x), 3));
    RunOne(cfg, s, Deliver(j));
    var s1 := Run(cfg, s, [Deliver(j)]);
    Interrupted(cfg, SliceOf(s.db, j, d), s.workers[j].pc, Start, j, d, doc0, outs);
    assert Standing(cfg, s1, j, d, doc0, outs, Start) && s1.db == s.db by { hide Good, Settled, SliceOf, Run; }
    hide Standing, Moved, WorkStep, Good, Settled, Run, Apply, Healthy, SliceOf;
    MovedNone(cfg, s1, j, x);
    Known(cfg, s1, j, d, doc0, outs, Start);
    MovedOnce(cfg, s1, j, x, 0);
    MoveStart(cfg, s1, j, x, d, doc0, outs);
    var s2 := WorkStep(cfg, s1, j, x);
    var pc2 := Live(Check(Begin), snap, []);
    Known(cfg, s2, j, d, doc0, outs, pc2);
    MovedOnce(cfg, s1, j, x, 1);
    MoveCheck(cfg, s2, j, x, d, doc0, outs, pc2);
    var s3 := WorkStep(cfg, s2, j, x);
    Known(cfg, s3, j, d, doc0, outs, pc2.(at := Exec(Begin)));
    MovedOnce(cfg, s1, j, x, 2);
    MoveStatus(cfg, s3, j, x, d, doc0, outs, pc2.(at := Exec(Begin)));
    MovedIs(cfg, s1, j, x, 3);
  }

  ghost function SnapOf(s: Sys, d: Id): Document {
    if d in s.db.docs then s.db.docs[d] else Document("", "", "", "", None, Pending, None)
  }

  lemma MovedIs(cfg: Config, s: Sys, j: Id, choice: Output, k: nat)
    ensures Moved(cfg, s, j, choice, k) == Run(cfg, s, Repeat(Work(j, choice), k))
  {
    hide Apply;
  }

  /** From its first step an attempt that nothing disturbs takes step after step. */
  lemma {:induction false} StepsSucceed(cfg: Config, s: Sys, j: Id, d: Id, doc0: Document, all: seq<Output>, k: nat,
                                        n: nat, snap: Document)
    requires Possible(cfg, d, all) && k <= |all| && n <= |all|
    requires Standing(cfg, s, j, d, doc0, all[..k], Live(Entry(0), snap, []))
    ensures Through(cfg, Run(cfg, s, StepEvents(j, all[..n])), j, d, doc0, all, k, n, snap)
  {
    hide Standing, Possible, Run, MovesFor, Repeat, Moved;
    if n == 0 {
      assert all[..0] == [] && Run(cfg, s, []) == s by { RunNone(cfg, s); }
    } else {
      StepsSucceed(cfg, s, j, d, doc0, all, k, n - 1, snap);
      StepEventsSnoc(j, all, n - 1);
      var before := Run(cfg, s, StepEvents(j, all[..n - 1]));
      RunAppend(cfg, s, StepEvents(j, all[..n - 1]), Repeat(Work(j, all[n - 1]), MovesFor(n - 1)));
      MovedIs(cfg, before, j, all[n - 1], MovesFor(n - 1));
      PossibleRunner(cfg, d, all, n - 1);
      OneStep(cfg, before, j, d, doc0, all, k, n - 1, snap);
    }
  }

  lemma RunNone(cfg: Config, s: Sys)
    ensures Run(cfg, s, []) == s
  {
    hide Apply;
  }

  lemma StepEventsSnoc(j: Id, all: seq<Output>, n: nat)
    requires n < |all|
    ensures StepEvents(j, all[..n + 1]) == StepEvents(j, all[..n]) + Repeat(Work(j, all[n]), MovesFor(n))
  {
    assert all[..n + 1][..n] == all[..n];
  }

  /** A worker at rest that has committed the first k payloads, delivered and undisturbed. */
  lemma RestSucceeds(cfg: Config, s: Sys, j: Id, d: Id, doc0: Document, all: seq<Output>, k: nat)
    requires Possible(cfg, d, all) && k <= |all|
    requires Healthy(cfg, s, j, d, doc0, all[..k])
    requires (s.workers[j].pc.Idle? || s.workers[j].pc.Ended?) && (cfg.fk ==> doc0.kb in s.db.kbs)
    ensures Through(cfg, Run(cfg, s, CleanEvents(j, all)), j, d, doc0, all, k, |all|, SnapOf(s, d))
  {
    Opening(cfg, s, j, d, doc0, all[..k]);
    var first := Run(cfg, s, OpeningEvents(j));
    hide Healthy, Settled, Standing, Possible, Run, Through, OpeningEvents, StepEvents;
    RunAppend(cfg, s, OpeningEvents(j), StepEvents(j, all));
    StepsSucceed(cfg, first, j, d, doc0, all, k, |all|, SnapOf(s, d));
    assert all[..|all|] == all;
  }

  /** An attempt that nothing disturbs commits step after step and ends in success. */
  lemma CleanSucceeds(cfg: Config, s0: Sys, j: Id, d: Id, all: seq<Output>)
    requires Submitted(s0, j, d) && (cfg.fk ==> s0.db.docs[d].kb in s0.db.kbs)
    requires Possible(cfg, d, all)
    ensures Through(cfg, Run(cfg, s0, CleanEvents(j, all)), j, d, DocumentOf(s0, d), all, 0, |all|, SnapOf(s0, d))
  {
    SubmittedHealthy(cfg, s0, j, d);
    assert all[..0] == [];
    hide Healthy, Settled, Possible, Run, Through, CleanEvents;
    RestSucceeds(cfg, s0, j, d, DocumentOf(s0, d), all, 0);
  }

  lemma Done(cfg: Config, s: Sys, j: Id, d: Id, doc0: Document, all: seq<Output>, k: nat, snap: Document)
    requires k <= |all| == STEPS && Through(cfg, s, j, d, doc0, all, k, STEPS, snap)
    ensures Healthy(cfg, s, j, d, doc0, all) && Settled(cfg, SliceOf(s.db, j, d), d, doc0, all)
    ensures j in s.db.jobs && s.db.jobs[j].status == Succeeded && d in s.db.docs && s.db.docs[d].status == Ready
  {
    assert all[..STEPS] == all;
    hide Healthy, Settled;
  }

  ghost function DocumentOf(s: Sys, d: Id): Document
    requires d in s.db.docs
  {
    s.db.docs[d]
  }

  // ---------- what a finished job leaves behind ----------

  /** All a finished job leaves behind: its receipts and the document's rows. */
  ghost function Published(db: Db, j: Id, d: Id): Slice {
    var sl := SliceOf(db, j, d);
    sl.(job := None,
        doc := if sl.doc.Some? then Some(sl.doc.value.(status := Ready)) else None)
  }

  lemma SettledDetermines(cfg: Config, db1: Db, db2: Db, j: Id, d: Id, doc0: Document, outs: seq<Output>)
    requires |outs| == STEPS
    requires SliceOf(db1, j, d).doc.Some? && SameDocument(doc0, SliceOf(db1, j, d).doc.value)
    requires SliceOf(db2, j, d).doc.Some? && SameDocument(doc0, SliceOf(db2, j, d).doc.value)
    requires SliceOf(db1, j, d).receipts == SliceOf(db2, j, d).receipts
    requires Settled(cfg, SliceOf(db1, j, d), d, doc0, outs) && Settled(cfg, SliceOf(db2, j, d), d, doc0, outs)
    ensures Published(db1, j, d) == Published(db2, j, d)
  {
    hide SliceOf, ChunksOf, PagesOf, VectorsOf, ImagesOf, ParsedOf, ParseRowOf, ChunkRows, Numbered;
  }

  lemma HealthyFacts(cfg: Config, s: Sys, j: Id, d: Id, doc0: Document, outs: seq<Output>)
    requires Healthy(cfg, s, j, d, doc0, outs)
    ensures SliceOf(s.db, j, d).doc.Some? && SameDocument(doc0, SliceOf(s.db, j, d).doc.value)
    ensures SliceOf(s.db, j, d).receipts == Receipts(cfg, j, d, doc0.sha256, outs)
    ensures Possible(cfg, d, outs)
    ensures j in s.db.jobs && d in s.db.docs
    ensures s.db.jobs[j].status == Succeeded ==> |outs| == STEPS
  {
    hide Receipts, Possible, PcOk;
  }

  lemma LengthAtMost(cfg: Config, d: Id, outs: seq<Output>)
    requires Possible(cfg, d, outs)
    ensures |outs| <= STEPS
  {}

  // ---------- why no sibling may move later ----------

  /** Moves and deliveries of one other job. */
  ghost predicate OnlyMoves(events: seq<Event>, j2: Id) {
    forall i | 0 <= i < |events| :: (events[i].Work? || events[i].Deliver?) && events[i].job == j2
  }

  lemma {:induction false} RepeatOnly(e: Event, n: nat, j2: Id)
    requires (e.Work? || e.Deliver?) && e.job == j2
    ensures OnlyMoves(Repeat(e, n), j2)
  {
    if n > 0 {
      RepeatOnly(e, n - 1, j2);
    }
  }

  lemma {:induction false} StepEventsOnly(j2: Id, all: seq<Output>)
    ensures OnlyMoves(StepEvents(j2, all), j2)
  {
    if all != [] {
      var n := |all| - 1;
      StepEventsOnly(j2, all[..n]);
      RepeatOnly(Work(j2, all[n]), MovesFor(n), j2);
    }
  }

  lemma CleanEventsOnly(j2: Id, all: seq<Output>)
    ensures OnlyMoves(CleanEvents(j2, all), j2)
  {
    RepeatOnly(Work(j2, SessionOutput("")), 3, j2);
    StepEventsOnly(j2, all);
    hide Repeat, StepEvents;
  }

  /** Another job's moves leave this job's row and receipts alone. */
  lemma SiblingLeavesJob(cfg: Config, s: Sys, e: Event, j: Id, d: Id)
    requires (e.Work? || e.Deliver?) && e.job != j
    requires j in s.db.jobs && s.db.jobs[j].doc == d && d in s.db.docs
    ensures var after := Apply(cfg, s, e);
            d in after.db.docs ==>
              && Get(after.db.jobs, j) == Get(s.db.jobs, j)
              && ReceiptsFor(after.db.receipts, j) == ReceiptsFor(s.db.receipts, j)
  {
    hide ReceiptsFor, Next, Perform, Fails, OwnRows;
    if e.Work? && e.job in s.workers {
      var d2 := s.workers[e.job].doc;
      var tx := Next(cfg, s.db, e.job, d2, s.workers[e.job].pc, e.choice).tx;
      if d2 != d {
        OtherTx(s.db, j, d, e.job, d2, tx);
      } else if tx == PurgeTx {
        PurgeRemoves(s.db, e.job, d);
      } else {
        SiblingJob(s.db, j, d, e.job, tx);
      }
    }
  }

  lemma PurgeRemoves(db: Db, j: Id, d: Id)
    ensures d !in Perform(db, j, d, PurgeTx).docs
  {
    hide DropJobs, DropReceipts, DropRows, DropParses, DropCitations;
  }

  lemma {:induction false} SiblingRunLeavesJob(cfg: Config, s: Sys, events: seq<Event>, j: Id, d: Id, j2: Id)
    requires OnlyMoves(events, j2) && j2 != j
    requires j in s.db.jobs && s.db.jobs[j].doc == d && d in s.db.docs
    ensures var after := Run(cfg, s, events);
            d in after.db.docs ==>
              && Get(after.db.jobs, j) == Get(s.db.jobs, j)
              && ReceiptsFor(after.db.receipts, j) == ReceiptsFor(s.db.receipts, j)
  {
    hide Apply, ReceiptsFor;
    if events != [] {
      var n := |events| - 1;
      SiblingRunLeavesJob(cfg, s, events[..n], j, d, j2);
      if d in Run(cfg, s, events[..n]).db.docs {
        SiblingLeavesJob(cfg, Run(cfg, s, events[..n]), events[n], j, d);
      } else {
        DocGone(cfg, Run(cfg, s, events[..n]), events[n], d);
      }
    }
  }

  lemma RetriedSubmitted(cfg: Config, s: Sys, d: Id, j2: Id)
    requires Enabled(s, Retry(d, j2)) && forall k | k in s.db.receipts :: k.job != j2
    ensures Submitted(Apply(cfg, s, Retry(d, j2)), j2, d)
    ensures Apply(cfg, s, Retry(d, j2)).db.docs[d].kb == s.db.docs[d].kb && Apply(cfg, s, Retry(d, j2)).db.kbs == s.db.kbs
  {}

  lemma RetryLeavesJob(cfg: Config, s: Sys, d: Id, j2: Id, j: Id)
    requires Enabled(s, Retry(d, j2)) && j in s.db.jobs
    ensures var after := Apply(cfg, s, Retry(d, j2));
            && d in after.db.docs && j in after.db.jobs && after.db.jobs[j] == s.db.jobs[j] && j != j2
            && after.db.receipts == s.db.receipts
  {}

  lemma SessionPublished(cfg: Config, s: Sys, j: Id, d: Id, doc0: Document, all: seq<Output>)
    requires |all| == STEPS && Settled(cfg, SliceOf(s.db, j, d), d, doc0, all)
    ensures d in s.db.parses && s.db.parses[d].session == SessionOf(all)
  {
    hide ChunksSettled, PagesSettled, AssetsSettled, OwnRows, ReceiptsFor;
  }

  /** A run that shows why: the job succeeds, the document is retried, and the new job, with
      another OCR session, succeeds too.  The first job's row and receipts still say success,
      but the document's rows are not the ones they call for. */
  lemma SiblingOverwrites(cfg: Config, s0: Sys, j: Id, d: Id, j2: Id, all: seq<Output>, all2: seq<Output>)
      returns (events: seq<Event>)
    requires Submitted(s0, j, d) && (cfg.fk ==> s0.db.docs[d].kb in s0.db.kbs)
    requires Possible(cfg, d, all) && |all| == STEPS && Possible(cfg, d, all2) && |all2| == STEPS
    requires SessionOf(all) != SessionOf(all2)
    requires var s1 := Run(cfg, s0, CleanEvents(j, all));
             j2 !in s1.workers && j2 !in s1.db.jobs && forall k | k in s1.db.receipts :: k.job != j2
    ensures var s := Run(cfg, s0, events);
            && j in s.db.jobs && s.db.jobs[j].status == Succeeded && d in s.db.docs && s.db.docs[d].status == Ready
            && IsPrefix(cfg, s.db.receipts, j, d, s0.db.docs[d].sha256, all)
            && Published(s.db, j, d) != Published(Run(cfg, s0, CleanEvents(j, all)).db, j, d)
  {
    var doc0 := DocumentOf(s0, d);
    var first, second := CleanEvents(j, all), CleanEvents(j2, all2);
    events := first + [Retry(d, j2)] + second;
    var s1 := Run(cfg, s0, first);
    CleanSucceeds(cfg, s0, j, d, all);
    Done(cfg, s1, j, d, doc0, all, 0, SnapOf(s0, d));
    ThroughKb(cfg, s1, j, d, doc0, all, 0, SnapOf(s0, d));
    SessionPublished(cfg, s1, j, d, doc0, all);
    HealthyPrefix(cfg, s1, j, d, doc0, all);
    GoodPlace(cfg, s1, j, d, doc0, all);
    RunAppend(cfg, s0, first + [Retry(d, j2)], second);
    RunAppend(cfg, s0, first, [Retry(d, j2)]);
    RunOne(cfg, s1, Retry(d, j2));
    hide Submitted, Possible, Run, Through, CleanEvents, Healthy, Settled, IsPrefix, SliceOf, Published, OnlyMoves;
    var s2 := Apply(cfg, s1, Retry(d, j2));
    assert Enabled(s1, Retry(d, j2));
    RetriedSubmitted(cfg, s1, d, j2);
    RetryLeavesJob(cfg, s1, d, j2, j);
    hide Apply, Enabled;
    var s3 := Run(cfg, s2, second);
    CleanSucceeds(cfg, s2, j2, d, all2);
    Done(cfg, s3, j2, d, DocumentOf(s2, d), all2, 0, SnapOf(s2, d));
    SessionPublished(cfg, s3, j2, d, DocumentOf(s2, d), all2);
    CleanEventsOnly(j2, all2);
    SiblingRunLeavesJob(cfg, s2, second, j, d, j2);
    PrefixByReceipts(cfg, s1.db.receipts, s3.db.receipts, j, d, doc0.sha256, all);
    PublishedSession(s1.db, s3.db, j, d);
  }

  lemma ThroughKb(cfg: Config, s: Sys, j: Id, d: Id, doc0: Document, all: seq<Output>, k: nat, snap: Document)
    requires k <= |all| == STEPS && Through(cfg, s, j, d, doc0, all, k, STEPS, snap)
    ensures d in s.db.docs && (cfg.fk ==> s.db.docs[d].kb in s.db.kbs)
  {
    GoodPlace(cfg, s, j, d, doc0, Have(all, k, STEPS));
    hide Healthy, Settled;
  }

  lemma PrefixByReceipts(cfg: Config, was: map<ReceiptKey, Output>, now: map<ReceiptKey, Output>, j: Id, d: Id,
                         sha256: string, outs: seq<Output>)
    requires IsPrefix(cfg, was, j, d, sha256, outs) && ReceiptsFor(was, j) == ReceiptsFor(now, j)
    ensures IsPrefix(cfg, now, j, d, sha256, outs)
  {
    hide KeyOf, InPrefix;
    forall i | 0 <= i < |outs|
      ensures var key := KeyOf(cfg, j, d, sha256, outs[..i]); key in now && now[key] == outs[i]
    {
      var key := KeyOf(cfg, j, d, sha256, outs[..i]);
      assert key in was && was[key] == outs[i];
      KeyHasJob(cfg, j, d, sha256, outs[..i]);
      OwnKey(was, key);
      OwnKey(now, key);
    }
    forall k | k in now && k.job == j
      ensures InPrefix(cfg, k, j, d, sha256, outs)
    {
      OwnKey(was, k);
      OwnKey(now, k);
    }
  }

  lemma KeyHasJob(cfg: Config, j: Id, d: Id, sha256: string, mem: seq<Output>)
    ensures KeyOf(cfg, j, d, sha256, mem).job == j
  {
    hide InputOf;
  }

  lemma PublishedSession(was: Db, now: Db, j: Id, d: Id)
    requires d in was.parses && d in now.parses && was.parses[d].session != now.parses[d].session
    ensures Published(was, j, d) != Published(now, j, d)
  {
    hide OwnRows, ReceiptsFor;
  }

  // ---------- every job can be finished ----------

  /** Kill whatever attempt is under way, and deliver the job once more. */
  function ResumeEvents(j: Id, all: seq<Output>): seq<Event> {
    [Crash(j)] + CleanEvents(j, all)
  }

  lemma Rested(cfg: Config, s: Sys, j: Id, d: Id, doc0: Document, outs: seq<Output>)
    requires Healthy(cfg, s, j, d, doc0, outs)
    ensures var rest := Apply(cfg, s, Crash(j));
            && Healthy(cfg, rest, j, d, doc0, outs) && rest.db == s.db
            && (rest.workers[j].pc.Idle? || rest.workers[j].pc.Ended?)
  {
    Interrupted(cfg, SliceOf(s.db, j, d), s.workers[j].pc, Idle, j, d, doc0, outs);
    hide Good, SliceOf;
  }

  /** The services can always answer so that the job goes on. */
  lemma {:induction false} CompletionExists(cfg: Config, d: Id, outs: seq<Output>) returns (all: seq<Output>)
    requires Possible(cfg, d, outs)
    ensures outs <= all && |all| == STEPS && Possible(cfg, d, all)
    decreases STEPS - |outs|
  {
    hide ChunksOf, PagesOf, ParsedOf;
    var n := |outs|;
    if n == STEPS {
      all := outs;
    } else {
      var choice := if n == 0 then SessionOutput("") else if n == 1 then OcrOutput("", [])
                    else VectorsOutput(seq(|ChunksOf(cfg, outs)|, i => []));
      var out := Runner(cfg, d, outs, choice).value;
      RunnerResult(cfg, d, outs, choice);
      PossibleSnoc(cfg, d, outs, out);
      hide Possible, Runner;
      all := CompletionExists(cfg, d, outs + [out]);
    }
  }

  /** Recovery: from every state a run reaches in which the document exists, whatever has been
      committed is kept, and one more delivery that nothing disturbs finishes the job, for all
      answers the services may still give.  Tables that other workers have overwritten are put
      right on the way. */
  lemma AlwaysRecoverable(cfg: Config, s0: Sys, events: seq<Event>, j: Id, d: Id,
                          all: seq<Output>) returns (outs: seq<Output>)
    requires Submitted(s0, j, d)
    requires cfg.fk ==> FkOk(s0.db)
    requires Possible(cfg, d, all) && |all| == STEPS
    ensures var s := Run(cfg, s0, events);
            var after := Run(cfg, s, ResumeEvents(j, all));
            d in s.db.docs ==>
              && IsPrefix(cfg, s.db.receipts, j, d, s0.db.docs[d].sha256, outs)
              && (outs <= all ==>
                    && j in after.db.jobs && after.db.jobs[j].status == Succeeded
                    && d in after.db.docs && after.db.docs[d].status == Ready
                    && IsPrefix(cfg, after.db.receipts, j, d, s0.db.docs[d].sha256, all)
                    && Settled(cfg, SliceOf(after.db, j, d), d, s0.db.docs[d], all))
  {
    outs := RunKeeps(cfg, s0, events, j, d);
    var s, doc0 := Run(cfg, s0, events), DocumentOf(s0, d);
    if d in s.db.docs {
      HealthyPrefix(cfg, s, j, d, doc0, outs);
      KbThere(cfg, s0, events, j, d, outs);
      if outs <= all {
        Resumed(cfg, s, j, d, doc0, outs, all);
      }
    }
    hide Healthy, Settled, Possible, IsPrefix, Submitted, Undisturbed, Unaccompanied, Run, ResumeEvents, FkOk;
  }

  lemma Resumed(cfg: Config, s: Sys, j: Id, d: Id, doc0: Document, outs: seq<Output>, all: seq<Output>)
    requires Healthy(cfg, s, j, d, doc0, outs)
    requires cfg.fk ==> doc0.kb in s.db.kbs
    requires Possible(cfg, d, all) && |all| == STEPS && outs <= all
    ensures var after := Run(cfg, s, ResumeEvents(j, all));
            && j in after.db.jobs && after.db.jobs[j].status == Succeeded
            && d in after.db.docs && after.db.docs[d].status == Ready
            && IsPrefix(cfg, after.db.receipts, j, d, doc0.sha256, all)
            && Settled(cfg, SliceOf(after.db, j, d), d, doc0, all)
  {
    hide Settled, Possible, IsPrefix, Run, Apply, CleanEvents, Healthy, Through;
    var rest := Apply(cfg, s, Crash(j));
    Rested(cfg, s, j, d, doc0, outs);
    RunAppend(cfg, s, [Crash(j)], CleanEvents(j, all));
    RunOne(cfg, s, Crash(j));
    assert all[..|outs|] == outs;
    RestSucceeds(cfg, rest, j, d, doc0, all, |outs|);
    var after := Run(cfg, rest, CleanEvents(j, all));
    Done(cfg, after, j, d, doc0, all, |outs|, SnapOf(rest, d));
    HealthyPrefix(cfg, after, j, d, doc0, all);
  }

  lemma KbThere(cfg: Config, s0: Sys, events: seq<Event>, j: Id, d: Id, outs: seq<Output>)
    requires d in s0.db.docs && (cfg.fk ==> FkOk(s0.db))
    requires Healthy(cfg, Run(cfg, s0, events), j, d, s0.db.docs[d], outs)
    ensures cfg.fk ==> s0.db.docs[d].kb in Run(cfg, s0, events).db.kbs
  {
    var s := Run(cfg, s0, events);
    GoodPlace(cfg, s, j, d, s0.db.docs[d], outs);
    if cfg.fk {
      DeletionWins.FkRun(cfg, s0, events);
      hide Run, Healthy, JobsOk, ReceiptsOk, ChunksOk, RowsOk, ParsesOk, SessionsOk, MessagesOk, CitationsOk,
          PermissionsOk;
      assert DocsOk(s.db.docs, s.db.kbs.Keys);
    }
  }
}
