/** The percentage over whole runs of the ingest protocol. */
module ProgressRuns {
  import opened Wrappers
  import opened Tables
  import opened Deletion
  import opened Ingest
  import opened IngestSlice
  import opened IngestRefinement
  import opened CrashRefinement
  import opened Progress
  import DeletionWins

  function Done(db: Db, j: Id): set<Step> {
    set k | k in db.receipts && k.job == j :: k.step
  }

  /** The answer of the progress request for the document and a job of it; the request takes
      the latest one. */
  function ShownOf(db: Db, j: Id, d: Id): nat
    requires j in db.jobs && d in db.docs
  {
    Shown(db.docs[d].status, db.jobs[j].status, Done(db, j))
  }

  // ---------- the receipts as a set of steps ----------

  lemma DoneIs(cfg: Config, s: Sys, j: Id, d: Id, doc0: Document, outs: seq<Output>)
    requires Healthy(cfg, s, j, d, doc0, outs)
    ensures Done(s.db, j) == set i: nat | i < |outs| :: StepAt(i)
  {
    HealthyPrefix(cfg, s, j, d, doc0, outs);
    var steps := set i: nat | i < |outs| :: StepAt(i);
    forall x | x in Done(s.db, j)
      ensures x in steps
    {
      var k :| k in s.db.receipts && k.job == j && k.step == x;
      assert InPrefix(cfg, k, j, d, doc0.sha256, outs);
      var i :| 0 <= i < |outs| && k == KeyOf(cfg, j, d, doc0.sha256, outs[..i]);
      assert x == StepAt(i);
    }
    forall x | x in steps
      ensures x in Done(s.db, j)
    {
      var i: nat :| i < |outs| && x == StepAt(i);
      var key := KeyOf(cfg, j, d, doc0.sha256, outs[..i]);
      assert key in s.db.receipts && key.job == j && key.step == x;
    }
    hide Good, KeyOf, StepAt;
  }

  lemma FinalizeLast(n: nat)
    requires n <= STEPS
    ensures Finalize in (set i: nat | i < n :: StepAt(i)) <==> n == STEPS
  {
    assert StepAt(STEPS - 1) == Finalize;
    forall i: nat | i < n && i < STEPS - 1
      ensures StepAt(i) != Finalize
    {
      StepsDiffer(i, STEPS - 1);
    }
    hide StepAt;
  }

  lemma FinalizeDone(cfg: Config, s: Sys, j: Id, d: Id, doc0: Document, outs: seq<Output>)
    requires Healthy(cfg, s, j, d, doc0, outs)
    ensures Finalize in Done(s.db, j) <==> |outs| == STEPS
  {
    DoneIs(cfg, s, j, d, doc0, outs);
    LengthBound(cfg, s, j, d, doc0, outs);
    FinalizeLast(|outs|);
    hide Healthy, Done, StepAt;
  }

  lemma LengthBound(cfg: Config, s: Sys, j: Id, d: Id, doc0: Document, outs: seq<Output>)
    requires Healthy(cfg, s, j, d, doc0, outs)
    ensures |outs| <= STEPS && j in s.db.jobs && d in s.db.docs
    ensures s.db.jobs[j].status == Succeeded ==> |outs| == STEPS
  {
    hide Receipts, Runner, PcOk;
  }

  // ---------- 100 ----------

  /** While no other worker of the document moves, 100 is shown exactly when the final receipt
      is committed, unless the document is failed, disabled or being deleted. */
  lemma HundredIffFinalized(cfg: Config, s0: Sys, events: seq<Event>, j: Id, d: Id)
    requires Submitted(s0, j, d) && Unaccompanied(cfg, s0, events, j, d)
    ensures var s := Run(cfg, s0, events);
            d in s.db.docs ==>
              && j in s.db.jobs
              && (!(Final(s.db.docs[d].status) && s.db.docs[d].status != Ready) ==>
                    (ShownOf(s.db, j, d) == 100 <==> Finalize in Done(s.db, j)))
  {
    var outs := RunKeeps(cfg, s0, events, j, d);
    var s := Run(cfg, s0, events);
    if d in s.db.docs {
      LengthBound(cfg, s, j, d, s0.db.docs[d], outs);
      FinalizeDone(cfg, s, j, d, s0.db.docs[d], outs);
      HundredExactly(s.db.docs[d].status, s.db.jobs[j].status, Done(s.db, j));
    }
    hide Submitted, Unaccompanied, Run, Healthy, Settled, Done, Shown;
  }

  // ---------- across redeliveries ----------

  lemma {:induction false} RunGrows(cfg: Config, s: Sys, events: seq<Event>, j: Id, d: Id, doc0: Document,
                                    outs: seq<Output>)
      returns (longer: seq<Output>)
    requires Healthy(cfg, s, j, d, doc0, outs)
    ensures outs <= longer
    ensures d in Run(cfg, s, events).db.docs ==> Healthy(cfg, Run(cfg, s, events), j, d, doc0, longer)
  {
    hide Healthy, Apply, Onward;
    longer := outs;
    if events != [] {
      var n := |events| - 1;
      var before := Run(cfg, s, events[..n]);
      var prior := RunGrows(cfg, s, events[..n], j, d, doc0, outs);
      if d in before.db.docs {
        longer := EventStep(cfg, before, events[n], j, d, doc0, prior);
        OnwardIs(cfg, before, Apply(cfg, before, events[n]), j, d, doc0, prior, longer);
      } else {
        DocGone(cfg, before, events[n], d);
      }
    }
  }

  /** Once a step is receipted, the percentage stays at its value or above (99 at the most
      until the job is done), over every crash, failure and redelivery. */
  lemma NeverBelowLastReceipt(cfg: Config, s: Sys, events: seq<Event>, j: Id, d: Id, doc0: Document,
                              outs: seq<Output>, x: Step)
    requires Healthy(cfg, s, j, d, doc0, outs) && x in Done(s.db, j)
    ensures var after := Run(cfg, s, events);
            d in after.db.docs ==>
              && j in after.db.jobs && x in Done(after.db, j)
              && (ShownOf(after.db, j, d) >= StepProgress(x) || ShownOf(after.db, j, d) >= 99)
  {
    var after := Run(cfg, s, events);
    var longer := RunGrows(cfg, s, events, j, d, doc0, outs);
    DoneIs(cfg, s, j, d, doc0, outs);
    if d in after.db.docs {
      DoneIs(cfg, after, j, d, doc0, longer);
      LengthBound(cfg, after, j, d, doc0, longer);
      NeverBelowReceipts(after.db.docs[d].status, after.db.jobs[j].status, Done(after.db, j), x);
    }
    hide Healthy, Run, Done, Shown, StepAt, StepProgress;
  }

  // ---------- within one attempt ----------

  /** Past the transaction that marks the job running. */
  predicate InAttempt(pc: Pc) {
    pc.Live? && pc.at != Check(Begin) && pc.at != Exec(Begin)
  }

  function AttemptStatus(at: Point, n: nat): DocStatus {
    if at == Check(Mark) || at == Exec(Mark) then (if n == 2 then Ocr else Embedding)
    else if n < 2 then Ocr
    else if n < 5 then Embedding
    else VectorIndexing
  }

  /** The status columns say how far the attempt is. */
  ghost predicate Positioned(sl: Slice, pc: Pc) {
    InAttempt(pc) ==>
      && sl.job.Some? && sl.job.value.status == Running
      && sl.doc.Some? && sl.doc.value.status == AttemptStatus(pc.at, |pc.mem|)
  }

  /** Where a step of the attempt leads, and what it does to the status columns. */
  ghost predicate Advances(sl: Slice, pc: Pc, next: Decision, j: Id, d: Id)
    requires sl.doc.Some? && sl.job.Some?
  {
    && Positioned(sl, next.else_)
    && Positioned(SlicePerform(sl, j, d, next.tx), next.then_)
    && (InAttempt(pc) && InAttempt(next.then_) ==>
          Rank(AttemptStatus(pc.at, |pc.mem|)) <= Rank(AttemptStatus(next.then_.at, |next.then_.mem|)))
  }

  lemma StatusAdvances(cfg: Config, db: Db, sl: Slice, j: Id, d: Id, pc: Pc, choice: Output, outs: seq<Output>,
                       doc0: Document)
    requires sl.doc.Some? && sl.job.Some? && Positioned(sl, pc) && PcOk(cfg, d, pc, doc0, outs)
    requires pc.Live? && (pc.at == Exec(Begin) || pc.at == Exec(Mark))
    ensures Advances(sl, pc, Next(cfg, db, j, d, pc, choice), j, d)
  {
    hide KeyOf, Runner, WriteOf, ParseRowOf, CancelledOrDeleted, SliceWritten, Receipted;
  }

  lemma ReadAdvances(cfg: Config, db: Db, sl: Slice, j: Id, d: Id, pc: Pc, choice: Output, outs: seq<Output>,
                     doc0: Document)
    requires sl.doc.Some? && sl.job.Some? && Positioned(sl, pc) && PcOk(cfg, d, pc, doc0, outs)
    requires pc.Live? && (pc.at.Check? || pc.at == Exec(Do))
    ensures Advances(sl, pc, Next(cfg, db, j, d, pc, choice), j, d)
  {
    hide KeyOf, Runner, WriteOf, ParseRowOf, CancelledOrDeleted, SliceWritten, Receipted;
  }

  lemma CommitAdvances(cfg: Config, db: Db, sl: Slice, j: Id, d: Id, pc: Pc, choice: Output, outs: seq<Output>,
                       doc0: Document)
    requires sl.doc.Some? && sl.job.Some? && Positioned(sl, pc) && PcOk(cfg, d, pc, doc0, outs)
    requires pc.Live? && pc.at.Ran?
    ensures Advances(sl, pc, Next(cfg, db, j, d, pc, choice), j, d)
  {
    WrittenStatus(sl, d, Next(cfg, db, j, d, pc, choice).tx);
    hide KeyOf, Runner, WriteOf, ParseRowOf, CancelledOrDeleted, SliceWritten, Receipted;
  }

  lemma WrittenStatus(sl: Slice, d: Id, tx: Tx)
    ensures tx.StepTx? ==> SliceWritten(sl, d, tx.write).doc == sl.doc && SliceWritten(sl, d, tx.write).job == sl.job
  {}

  lemma OwnPositioned(cfg: Config, db: Db, j: Id, d: Id, pc: Pc, choice: Output, doc0: Document, outs: seq<Output>)
    requires Good(cfg, SliceOf(db, j, d), pc, j, d, doc0, outs) && Positioned(SliceOf(db, j, d), pc)
    ensures var next := Next(cfg, db, j, d, pc, choice);
            && Positioned(SliceOf(db, j, d), next.else_)
            && Positioned(SliceOf(Perform(db, j, d, next.tx), j, d), next.then_)
            && (InAttempt(pc) && InAttempt(next.then_) ==>
                  Rank(AttemptStatus(pc.at, |pc.mem|)) <= Rank(AttemptStatus(next.then_.at, |next.then_.mem|)))
  {
    var sl, next := SliceOf(db, j, d), Next(cfg, db, j, d, pc, choice);
    GoodSlice(cfg, db, pc, j, d, doc0, outs);
    NoPurge(cfg, db, pc, j, d, choice, doc0, outs);
    hide Good, SliceOf, Perform, Positioned, AttemptStatus, InAttempt, PcOk, SlicePerform;
    OwnTx(db, j, d, next.tx);
    match pc
    case Live(at, _, _) =>
      hide Next, Advances;
      assert Advances(sl, pc, next, j, d) by {
        match at
        case Check(_) => ReadAdvances(cfg, db, sl, j, d, pc, choice, outs, doc0);
        case Exec(Do) => ReadAdvances(cfg, db, sl, j, d, pc, choice, outs, doc0);
        case Exec(_) => StatusAdvances(cfg, db, sl, j, d, pc, choice, outs, doc0);
        case Ran(_, _) => CommitAdvances(cfg, db, sl, j, d, pc, choice, outs, doc0);
      }
      AdvancesIs(sl, pc, next, j, d);
    case Cancelling => assert false;
    case _ =>
      hide NextLive, CancelledOrDeleted;
      OutsideAttempt(sl, next.else_);
      OutsideAttempt(SlicePerform(sl, j, d, next.tx), next.then_);
      OutsideAttempt(sl, pc);
  }

  lemma AdvancesIs(sl: Slice, pc: Pc, next: Decision, j: Id, d: Id)
    requires sl.doc.Some? && sl.job.Some? && Advances(sl, pc, next, j, d)
    ensures Positioned(sl, next.else_) && Positioned(SlicePerform(sl, j, d, next.tx), next.then_)
    ensures InAttempt(pc) && InAttempt(next.then_) ==>
              Rank(AttemptStatus(pc.at, |pc.mem|)) <= Rank(AttemptStatus(next.then_.at, |next.then_.mem|))
  {
    hide Positioned, SlicePerform, AttemptStatus;
  }

  lemma OutsideAttempt(sl: Slice, pc: Pc)
    requires !pc.Live? || pc.at == Check(Begin) || pc.at == Exec(Begin)
    ensures Positioned(sl, pc) && !InAttempt(pc)
  {}

  lemma GoodSlice(cfg: Config, db: Db, pc: Pc, j: Id, d: Id, doc0: Document, outs: seq<Output>)
    requires Good(cfg, SliceOf(db, j, d), pc, j, d, doc0, outs)
    ensures j in db.jobs && d in db.docs && PcOk(cfg, d, pc, doc0, outs)
    ensures SliceOf(db, j, d).doc.Some? && SliceOf(db, j, d).job.Some?
  {
    hide PcOk, Receipts, Possible, OwnRows, ReceiptsFor;
  }

  lemma NoPurge(cfg: Config, db: Db, pc: Pc, j: Id, d: Id, choice: Output, doc0: Document, outs: seq<Output>)
    requires Good(cfg, SliceOf(db, j, d), pc, j, d, doc0, outs)
    ensures Next(cfg, db, j, d, pc, choice).tx != PurgeTx
  {
    hide Good, SliceOf, Perform, Next, Settled;
    OwnStep(cfg, db, j, d, pc, choice, doc0, outs);
  }

  ghost predicate Steady(s: Sys, j: Id, d: Id) {
    j in s.workers && Positioned(SliceOf(s.db, j, d), s.workers[j].pc)
  }

  predicate Attempting(s: Sys, j: Id) {
    j in s.workers && InAttempt(s.workers[j].pc)
  }

  predicate Retries(e: Event, d: Id) {
    e.Retry? && e.doc == d
  }

  /** Another worker of the document moves, or the document is retried, during an attempt. */
  ghost predicate Disturbs(s: Sys, e: Event, j: Id, d: Id) {
    Attempting(s, j) && (SiblingMoves(s, e, j, d) || Retries(e, d))
  }

  /** Nothing has disturbed the attempt under way since its first commit. */
  ghost predicate AttemptAlone(cfg: Config, s0: Sys, events: seq<Event>, j: Id, d: Id) {
    events == [] || !Attempting(Run(cfg, s0, events), j) ||
    var n := |events| - 1;
    !Disturbs(Run(cfg, s0, events[..n]), events[n], j, d) && AttemptAlone(cfg, s0, events[..n], j, d)
  }

  lemma WorkPositioned(cfg: Config, s: Sys, j2: Id, choice: Output, j: Id, d: Id, doc0: Document, outs: seq<Output>)
    requires Healthy(cfg, s, j, d, doc0, outs) && Steady(s, j, d) && j2 in s.workers
    requires !SiblingMoves(s, Work(j2, choice), j, d)
    ensures Steady(WorkStep(cfg, s, j2, choice), j, d)
  {
    hide Good, SliceOf, Next, Perform, Fails, Positioned;
    GoodPlace(cfg, s, j, d, doc0, outs);
    if j2 == j {
      OwnPositioned(cfg, s.db, j, d, s.workers[j].pc, choice, doc0, outs);
    } else {
      var d2 := s.workers[j2].doc;
      OtherTx(s.db, j, d, j2, d2, Next(cfg, s.db, j2, d2, s.workers[j2].pc, choice).tx);
    }
  }

  lemma KbPositioned(cfg: Config, s: Sys, kb: Id, j: Id, d: Id, doc0: Document, outs: seq<Output>)
    requires Healthy(cfg, s, j, d, doc0, outs) && Steady(s, j, d)
    requires d in PurgeKb(s.db, kb).docs
    ensures Steady(s.(db := PurgeKb(s.db, kb)), j, d)
  {
    GoodPlace(cfg, s, j, d, doc0, outs);
    assert s.db.docs[d].kb != kb;
    hide Good, PurgeKb;
    KbPurged(s.db, j, d, kb);
    hide SliceOf;
  }

  lemma EventPositioned(cfg: Config, s: Sys, e: Event, j: Id, d: Id, doc0: Document, outs: seq<Output>)
    requires Healthy(cfg, s, j, d, doc0, outs) && Steady(s, j, d)
    requires !SiblingMoves(s, e, j, d) && !Retries(e, d) && d in Apply(cfg, s, e).db.docs
    ensures Steady(Apply(cfg, s, e), j, d)
  {
    if Enabled(s, e) {
      match e
      case Work(j2, choice) =>
        hide Healthy, Steady, WorkStep, SiblingMoves;
        WorkPositioned(cfg, s, j2, choice, j, d, doc0, outs);
      case DeleteKb(kb) =>
        hide Healthy, Steady, PurgeKb;
        KbPositioned(cfg, s, kb, j, d, doc0, outs);
      case DeleteDocument(d2) =>
        GoodPlace(cfg, s, j, d, doc0, outs);
        DeletionWins.PurgeColumns(s.db, {d2}, true);
        hide Healthy, Purge;
        OtherPurged(s.db, j, d, {d2}, true);
        hide SliceOf;
      case Retry(d2, j2) =>
        hide Good, OwnRows, ReceiptsFor;
        assert SliceOf(Apply(cfg, s, e).db, j, d) == SliceOf(s.db, j, d);
      case _ =>
        hide Good, SliceOf;
    }
  }

  /** Outside an attempt there is nothing to keep. */
  lemma AtRestSteady(s: Sys, j: Id, d: Id)
    requires j in s.workers && !Attempting(s, j)
    ensures Steady(s, j, d)
  {}

  /** Only the worker itself can enter an attempt. */
  lemma EnteredByItself(cfg: Config, s: Sys, e: Event, j: Id, d: Id)
    requires !Attempting(s, j) && Attempting(Apply(cfg, s, e), j) && j in s.workers
    ensures e.Work? && e.job == j && !SiblingMoves(s, e, j, d) && !Retries(e, d)
  {
    hide Next, Perform, Fails;
  }

  lemma AloneInit(cfg: Config, s0: Sys, events: seq<Event>, j: Id, d: Id)
    requires events != [] && AttemptAlone(cfg, s0, events, j, d) && Attempting(Run(cfg, s0, events), j)
    ensures var n := |events| - 1;
            AttemptAlone(cfg, s0, events[..n], j, d) && !Disturbs(Run(cfg, s0, events[..n]), events[n], j, d)
  {
    hide Disturbs, Attempting, Apply;
  }

  lemma {:induction false} RunSteady(cfg: Config, s0: Sys, events: seq<Event>, j: Id, d: Id)
    requires Submitted(s0, j, d) && AttemptAlone(cfg, s0, events, j, d)
    ensures d in Run(cfg, s0, events).db.docs ==> Steady(Run(cfg, s0, events), j, d)
  {
    hide AttemptAlone, Steady, Healthy, Settled, Apply, Attempting, SiblingMoves, Undisturbed, Unaccompanied;
    if events == [] {
      SubmittedAtRest(s0, j, d);
      AtRestSteady(s0, j, d);
    } else {
      var n := |events| - 1;
      var before, now := Run(cfg, s0, events[..n]), Run(cfg, s0, events);
      if d in before.db.docs {
        if d in now.db.docs {
          var outs := RunKeeps(cfg, s0, events[..n], j, d);
          var outs' := RunKeeps(cfg, s0, events, j, d);
          HealthyWorker(cfg, before, j, d, SubmittedDocument(s0, j, d), outs);
          HealthyWorker(cfg, now, j, d, SubmittedDocument(s0, j, d), outs');
          if Attempting(now, j) {
            AloneInit(cfg, s0, events, j, d);
            RunSteady(cfg, s0, events[..n], j, d);
            if !Attempting(before, j) {
              EnteredByItself(cfg, before, events[n], j, d);
            }
            EventPositioned(cfg, before, events[n], j, d, SubmittedDocument(s0, j, d), outs);
          } else {
            AtRestSteady(now, j, d);
          }
        }
      } else {
        DocGone(cfg, before, events[n], d);
      }
      hide Submitted;
    }
  }

  lemma SubmittedAtRest(s: Sys, j: Id, d: Id)
    requires Submitted(s, j, d)
    ensures j in s.workers && !Attempting(s, j)
  {}

  lemma InAttemptShown(s: Sys, j: Id, d: Id)
    requires Steady(s, j, d) && Attempting(s, j)
    ensures j in s.db.jobs && s.db.jobs[j].status == Running
    ensures d in s.db.docs && s.db.docs[d].status == AttemptStatus(s.workers[j].pc.at, |s.workers[j].pc.mem|)
  {
    hide OwnRows, ReceiptsFor, AttemptStatus;
  }

  lemma AttemptMoving(at: Point, n: nat, done: set<Step>)
    ensures Moving(AttemptStatus(at, n), Running, done) && Rank(AttemptStatus(at, n)) <= 3
  {}

  /** Within an attempt, from its first commit to its last, nothing that happens lowers the
      percentage, as long as no other worker of the document moves and nobody retries it. */
  lemma AttemptNeverFallsBack(cfg: Config, s0: Sys, events: seq<Event>, e: Event, j: Id, d: Id)
    requires Submitted(s0, j, d) && AttemptAlone(cfg, s0, events, j, d)
    requires var s := Run(cfg, s0, events); Attempting(s, j) && d in s.db.docs && !Disturbs(s, e, j, d)
    ensures var s, next := Run(cfg, s0, events), Apply(cfg, Run(cfg, s0, events), e);
            d in next.db.docs && (Attempting(next, j) || next.db.docs[d].status == Ready) ==>
              && j in s.db.jobs && j in next.db.jobs
              && ShownOf(s.db, j, d) <= ShownOf(next.db, j, d)
  {
    hide Attempting, SiblingMoves, Steady, Healthy, Settled, Run, Apply, AttemptAlone, Undisturbed, Unaccompanied;
    var s, doc0 := Run(cfg, s0, events), SubmittedDocument(s0, j, d);
    var next := Apply(cfg, s, e);
    var outs := RunKeeps(cfg, s0, events, j, d);
    RunSteady(cfg, s0, events, j, d);
    if d in next.db.docs && (Attempting(next, j) || next.db.docs[d].status == Ready) {
      OneEventShown(cfg, s, e, j, d, doc0, outs);
    }
    hide Submitted;
  }

  lemma OneEventShown(cfg: Config, s: Sys, e: Event, j: Id, d: Id, doc0: Document, outs: seq<Output>)
    requires Healthy(cfg, s, j, d, doc0, outs) && Steady(s, j, d) && Attempting(s, j)
    requires !SiblingMoves(s, e, j, d) && !Retries(e, d)
    requires var next := Apply(cfg, s, e); d in next.db.docs && (Attempting(next, j) || next.db.docs[d].status == Ready)
    ensures j in s.db.jobs && d in s.db.docs && j in Apply(cfg, s, e).db.jobs
    ensures ShownOf(s.db, j, d) <= ShownOf(Apply(cfg, s, e).db, j, d)
  {
    hide Healthy, Settled, Steady, Apply, Onward, Attempting, AttemptStatus, SiblingMoves, AllOnward;
    var next := Apply(cfg, s, e);
    var longer := EventStep(cfg, s, e, j, d, doc0, outs);
    EventPositioned(cfg, s, e, j, d, doc0, outs);
    OnwardIs(cfg, s, next, j, d, doc0, outs, longer);
    DoneIs(cfg, s, j, d, doc0, outs);
    DoneIs(cfg, next, j, d, doc0, longer);
    LengthBound(cfg, next, j, d, doc0, longer);
    InAttemptShown(s, j, d);
    var done, more := Done(s.db, j), Done(next.db, j);
    MoreDone(outs, longer);
    AttemptLive(s, j);
    AttemptMoving(s.workers[j].pc.at, |s.workers[j].pc.mem|, done);
    hide Shown, Moving, Done, Rank, StepAt;
    if Attempting(next, j) {
      InAttemptShown(next, j, d);
      AttemptLive(next, j);
      AttemptMoving(next.workers[j].pc.at, |next.workers[j].pc.mem|, more);
      RankKept(cfg, s, e, j, d, doc0, outs);
      ProgressGrows(s.db.docs[d].status, Running, done, next.db.docs[d].status, Running, more);
    } else {
      ShownTop(s.db.docs[d].status, s.db.jobs[j].status, done);
      HundredExactly(next.db.docs[d].status, next.db.jobs[j].status, more);
    }
  }

  lemma AttemptLive(s: Sys, j: Id)
    requires Attempting(s, j)
    ensures j in s.workers && s.workers[j].pc.Live?
  {}

  lemma MoreDone(outs: seq<Output>, longer: seq<Output>)
    requires outs <= longer
    ensures (set i: nat | i < |outs| :: StepAt(i)) <= (set i: nat | i < |longer| :: StepAt(i))
  {
    hide StepAt;
  }

  /** Only the worker itself moves the attempt on, and it moves it forward. */
  lemma RankKept(cfg: Config, s: Sys, e: Event, j: Id, d: Id, doc0: Document, outs: seq<Output>)
    requires Healthy(cfg, s, j, d, doc0, outs) && Steady(s, j, d) && Attempting(s, j)
    requires Attempting(Apply(cfg, s, e), j)
    ensures var was, now := s.workers[j].pc, Apply(cfg, s, e).workers[j].pc;
            Rank(AttemptStatus(was.at, |was.mem|)) <= Rank(AttemptStatus(now.at, |now.mem|))
  {
    hide Good, Positioned, SliceOf, Next, Perform, Fails, AttemptStatus, Rank;
    match e
    case Work(j2, choice) =>
      if j2 == j {
        OwnPositioned(cfg, s.db, j, d, s.workers[j].pc, choice, doc0, outs);
        ElseLeaves(cfg, s.db, j, d, s.workers[j].pc, choice);
      }
    case _ =>
  }

  lemma ElseLeaves(cfg: Config, db: Db, j: Id, d: Id, pc: Pc, choice: Output)
    ensures var next := Next(cfg, db, j, d, pc, choice);
            next.else_ == next.then_ || !InAttempt(next.else_)
  {
    hide KeyOf, Runner, WriteOf, ParseRowOf, CancelledOrDeleted;
  }
}
