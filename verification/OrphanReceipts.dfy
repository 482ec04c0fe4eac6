/** Receipts of a removed document without foreign keys: the hard delete finds receipts
    through the job rows, so one committed after those rows are gone is never found again. */
module OrphanReceipts {
  import opened Wrappers
  import opened Tables
  import opened Deletion
  import opened Ingest
  import opened IngestSlice
  import opened IngestRefinement
  import opened CrashRefinement
  import opened CleanRun
  import DeletionWins

  ghost predicate HasReceipts(db: Db, j: Id) {
    exists k :: k in db.receipts && k.job == j
  }

  function Own(db: Db, j: Id): map<ReceiptKey, Output> {
    ReceiptsFor(db.receipts, j)
  }

  lemma HasOwn(db: Db, j: Id)
    ensures HasReceipts(db, j) <==> Own(db, j) != map[]
  {
    if k: ReceiptKey :| k in db.receipts && k.job == j {
      assert k in Own(db, j);
    }
    if Own(db, j) != map[] {
      var k :| k in Own(db, j);
    }
  }

  /** The job's row and document are gone; its worker may still be at work. */
  ghost predicate Removed(s: Sys, j: Id) {
    j in s.workers && j !in s.db.jobs && s.workers[j].doc !in s.db.docs
  }

  /** The event commits a new receipt of a job whose row is gone. */
  ghost predicate Leaks(cfg: Config, s: Sys, e: Event, j: Id) {
    && e.Work? && e.job == j && j in s.workers && j !in s.db.jobs
    && var tx := Next(cfg, s.db, j, s.workers[j].doc, s.workers[j].pc, e.choice).tx;
       tx.StepTx? && !tx.cached && !Fails(cfg.fk, s.db, j, s.workers[j].doc, tx)
  }

  // ---------- one event ----------

  lemma PurgedOwn(db: Db, ids: set<Id>, withCitations: bool, j: Id)
    ensures var now := Purge(db, ids, withCitations);
            && (j !in db.jobs ==> j !in now.jobs && Own(now, j) == Own(db, j))
            && (j in db.jobs && j !in now.jobs ==> Own(now, j) == map[] && db.jobs[j].doc in ids)
  {
    var jobs := JobsOf(db.jobs, ids);
    assert j in db.jobs && j !in DropJobs(db.jobs, ids) ==> j in jobs && db.jobs[j].doc in ids;
    if j !in db.jobs {
      assert j !in jobs && j !in DropJobs(db.jobs, ids);
      OtherReceiptsDropped(db.receipts, jobs, j);
    } else if j in jobs {
      NoneDropped(db.receipts, jobs, j);
    }
    hide DropDocs, DropRows, DropParses, DropCitations, DropJobs, DropReceipts, JobsOf, ReceiptsFor;
  }

  lemma NoneDropped(receipts: map<ReceiptKey, Output>, jobs: set<Id>, j: Id)
    requires j in jobs
    ensures ReceiptsFor(DropReceipts(receipts, jobs), j) == map[]
  {}

  /** A worker's transaction on the receipts of j. */
  lemma TxOwn(db: Db, j2: Id, d: Id, tx: Tx, j: Id)
    ensures var now := Perform(db, j2, d, tx);
            && (j !in db.jobs ==>
                  && j !in now.jobs
                  && Own(now, j) ==
                     if j2 == j && tx.StepTx? && !tx.cached
                     then Own(db, j)[ReceiptKey(j, tx.step, tx.input) := tx.out] else Own(db, j))
            && (j in db.jobs && j !in now.jobs ==> Own(now, j) == map[] && db.jobs[j].doc == d)
  {
    hide Own, Perform;
    match tx
    case StepTx(_, _, _, _, _) => StepOwn(db, j2, d, tx, j);
    case FinishTx(_, _, _) => FinishOwn(db, j2, d, tx, j);
    case PurgeTx =>
      PurgedOwn(db, {d}, true, j);
      PurgePerformed(db, j2, d);
    case _ => StatusOwn(db, j2, d, tx, j);
  }

  lemma PurgePerformed(db: Db, j2: Id, d: Id)
    ensures Perform(db, j2, d, PurgeTx) == Purge(db, {d}, true)
  {}

  lemma StepOwn(db: Db, j2: Id, d: Id, tx: Tx, j: Id)
    requires tx.StepTx?
    ensures var now := Perform(db, j2, d, tx);
            && now.jobs == db.jobs
            && Own(now, j) == if j2 == j && !tx.cached
                              then Own(db, j)[ReceiptKey(j, tx.step, tx.input) := tx.out] else Own(db, j)
  {
    hide ReceiptsFor, Written;
    DeletionWins.WrittenColumns(db, d, tx.write);
    if j2 == j {
      OwnReceipted(db.receipts, ReceiptKey(j, tx.step, tx.input), tx.out, tx.cached);
    } else {
      OtherReceipted(db.receipts, ReceiptKey(j2, tx.step, tx.input), tx.out, tx.cached, j);
    }
  }

  lemma FinishOwn(db: Db, j2: Id, d: Id, tx: Tx, j: Id)
    requires tx.FinishTx?
    ensures var now := Perform(db, j2, d, tx);
            && now.jobs.Keys == db.jobs.Keys && (j !in db.jobs ==> Own(now, j) == Own(db, j))
  {
    hide ReceiptsFor, Receipted;
    if j2 != j {
      var key := ReceiptKey(j2, Finalize, tx.input);
      OtherReceipted(db.receipts, key, tx.out, key in db.receipts, j);
    }
  }

  lemma StatusOwn(db: Db, j2: Id, d: Id, tx: Tx, j: Id)
    requires !tx.StepTx? && !tx.FinishTx? && !tx.PurgeTx?
    ensures Perform(db, j2, d, tx).jobs.Keys == db.jobs.Keys && Own(Perform(db, j2, d, tx), j) == Own(db, j)
  {
    hide ReceiptsFor, Written, Purge, Cut;
  }

  lemma KbPurgedOwn(db: Db, kb: Id, j: Id)
    ensures var now := PurgeKb(db, kb);
            && (j !in db.jobs ==> j !in now.jobs && Own(now, j) == Own(db, j))
            && (j in db.jobs && j !in now.jobs ==> Own(now, j) == map[] && db.jobs[j].doc !in now.docs)
  {
    PurgedOwn(db, DocsOf(db.docs, kb), false, j);
    DeletionWins.PurgeColumns(db, DocsOf(db.docs, kb), false);
    hide Purge, ReceiptsFor, UnlinkSessions, DropKbChunks, DropKbCitations, DropPermissions, DropRows;
  }

  ghost predicate OneMore(was: map<ReceiptKey, Output>, now: map<ReceiptKey, Output>) {
    exists k :: k in now && now == was[k := now[k]]
  }

  lemma Updated(was: map<ReceiptKey, Output>, k: ReceiptKey, out: Output)
    ensures OneMore(was, was[k := out])
  {
    assert k in was[k := out];
  }

  /** Once the job row is gone, the job's receipts change only by a leak. */
  lemma EventOwn(cfg: Config, s: Sys, e: Event, j: Id)
    requires j in s.workers && j !in s.db.jobs
    ensures var after := Apply(cfg, s, e);
            && j in after.workers && after.workers[j].doc == s.workers[j].doc && j !in after.db.jobs
            && (!Leaks(cfg, s, e, j) ==> Own(after.db, j) == Own(s.db, j))
            && (Leaks(cfg, s, e, j) ==> OneMore(Own(s.db, j), Own(after.db, j)))
  {
    hide Own, Next, Perform, Fails, Purge, PurgeKb, OneMore;
    if Enabled(s, e) {
      match e
      case Work(j2, choice) =>
        var d := s.workers[j2].doc;
        var tx := Next(cfg, s.db, j2, d, s.workers[j2].pc, choice).tx;
        TxOwn(s.db, j2, d, tx, j);
        if Leaks(cfg, s, e, j) {
          Updated(Own(s.db, j), ReceiptKey(j, tx.step, tx.input), tx.out);
        }
      case DeleteDocument(d) => PurgedOwn(s.db, {d}, true, j);
      case DeleteKb(kb) => KbPurgedOwn(s.db, kb, j);
      case Retry(d, j2) => SameOwn(s.db, Apply(cfg, s, e).db, j);
      case _ =>
    }
  }

  lemma SameOwn(was: Db, now: Db, j: Id)
    requires was.receipts == now.receipts
    ensures Own(was, j) == Own(now, j)
  {}

  lemma RemovedEvent(cfg: Config, s: Sys, e: Event, j: Id)
    requires Removed(s, j)
    ensures Removed(Apply(cfg, s, e), j)
  {
    EventOwn(cfg, s, e, j);
    DocGone(cfg, s, e, s.workers[j].doc);
    hide Apply, Own, Leaks;
  }

  /** The event that removes the row removes the receipts with it, and the document; the worker
      stays where it is, or it was its own purge. */
  lemma RemovingEvent(cfg: Config, s: Sys, e: Event, j: Id)
    requires j in s.workers && j in s.db.jobs && s.db.jobs[j].doc == s.workers[j].doc
    requires j !in Apply(cfg, s, e).db.jobs
    ensures var after := Apply(cfg, s, e);
            && Removed(after, j) && Own(after.db, j) == map[] && after.workers[j].doc == s.workers[j].doc
            && (after.workers[j].pc == s.workers[j].pc || (s.workers[j].pc.Cancelling? && after.workers[j].pc.Ended?))
  {
    hide Own, Next, Perform, Fails, Purge, PurgeKb;
    match e
    case Work(j2, choice) =>
      var d := s.workers[j2].doc;
      var tx := Next(cfg, s.db, j2, d, s.workers[j2].pc, choice).tx;
      TxOwn(s.db, j2, d, tx, j);
      OnlyPurgeRemoves(s.db, j2, d, tx, j);
      PurgingPc(cfg, s.db, j2, d, s.workers[j2].pc, choice);
    case DeleteDocument(d) =>
      PurgedOwn(s.db, {d}, true, j);
      DeletionWins.PurgeColumns(s.db, {d}, true);
    case DeleteKb(kb) => KbPurgedOwn(s.db, kb, j);
    case _ =>
  }

  lemma OnlyPurgeRemoves(db: Db, j2: Id, d: Id, tx: Tx, j: Id)
    requires j in db.jobs && j !in Perform(db, j2, d, tx).jobs
    ensures tx.PurgeTx? && d !in Perform(db, j2, d, tx).docs
  {
    hide Written, Receipted, Purge;
    match tx
    case StepTx(_, _, _, _, write) => DeletionWins.WrittenColumns(db, d, write);
    case PurgeTx => DeletionWins.PurgeColumns(db, {d}, true);
    case _ =>
  }

  lemma PurgingPc(cfg: Config, db: Db, j: Id, d: Id, pc: Pc, choice: Output)
    ensures var next := Next(cfg, db, j, d, pc, choice);
            next.tx.PurgeTx? ==> pc.Cancelling? && next.then_.Ended?
  {
    hide KeyOf, WriteOf, Runner, ParseRowOf, CancelledOrDeleted;
  }

  // ---------- the worker after the removal ----------

  /** About to run a step that is not the last, or its fresh result is not yet committed. */
  predicate AtRisk(pc: Pc) {
    && pc.Live?
    && match pc.at
       case Exec(Do) => |pc.mem| < STEPS - 1
       case Ran(_, cached) => !cached
       case _ => false
  }

  /** A move, failure or death of the worker itself. */
  predicate OwnMove(e: Event, j: Id) {
    (e.Work? || e.Raise? || e.Crash?) && e.job == j
  }

  /** Those among the events, in order. */
  function OwnMoves(events: seq<Event>, j: Id): seq<Event> {
    if events == [] then []
    else if OwnMove(events[0], j) then [events[0]] + OwnMoves(events[1..], j)
    else OwnMoves(events[1..], j)
  }

  /** Foreign keys are not enforced, the rows of the step can be made, and the next own events
      are the moves up to the commit. */
  ghost predicate ReachesCommit(cfg: Config, d: Id, pc: Pc, moves: seq<Event>) {
    && !cfg.fk && AtRisk(pc) && WriteOf(cfg, pc.snap, pc.mem).Some?
    && moves != [] && moves[0].Work?
    && (pc.at.Exec? ==> |moves| >= 2 && moves[1].Work? && Runner(cfg, d, pc.mem, moves[0].choice).Some?)
  }

  /** From any other control point no commit of a new receipt can follow. */
  lemma SafeNext(cfg: Config, db: Db, j: Id, d: Id, pc: Pc, choice: Output)
    requires j !in db.jobs && d !in db.docs && !AtRisk(pc)
    ensures var next := Next(cfg, db, j, d, pc, choice);
            && !(next.tx.StepTx? && !next.tx.cached) && !AtRisk(next.else_)
            && (!Fails(cfg.fk, db, j, d, next.tx) ==> !AtRisk(next.then_))
  {
    hide KeyOf, WriteOf, Runner, ParseRowOf;
  }

  /** With no receipts left, the lookup misses. */
  lemma RiskyLookup(cfg: Config, db: Db, j: Id, d: Id, pc: Pc, choice: Output)
    requires AtRisk(pc) && pc.at.Exec? && Own(db, j) == map[]
    ensures var next, out := Next(cfg, db, j, d, pc, choice), Runner(cfg, d, pc.mem, choice);
            next.tx.NoTx? && if out.Some? then next.then_ == pc.(at := Ran(out.value, false)) else !AtRisk(next.then_)
  {
    hide InputOf, WriteOf, Runner, ParseRowOf;
    OwnKey(db.receipts, KeyOf(cfg, j, d, pc.snap.sha256, pc.mem));
  }

  lemma RiskyCommit(cfg: Config, db: Db, j: Id, d: Id, pc: Pc, choice: Output)
    requires j !in db.jobs && AtRisk(pc) && pc.at.Ran? && Own(db, j) == map[]
    ensures var next := Next(cfg, db, j, d, pc, choice);
            && !AtRisk(next.then_) && !AtRisk(next.else_)
            && (next.tx.StepTx? <==> WriteOf(cfg, pc.snap, pc.mem).Some?)
            && (next.tx.StepTx? ==> !next.tx.cached && (Fails(cfg.fk, db, j, d, next.tx) <==> cfg.fk))
  {
    hide InputOf, WriteOf, Runner, ParseRowOf;
    OwnKey(db.receipts, KeyOf(cfg, j, d, pc.snap.sha256, pc.mem));
  }

  lemma RemovedIs(s: Sys, j: Id)
    requires Removed(s, j)
    ensures j in s.workers && j !in s.db.jobs && s.workers[j].doc !in s.db.docs
  {}

  lemma SafeEvent(cfg: Config, s: Sys, e: Event, j: Id)
    requires Removed(s, j) && !AtRisk(s.workers[j].pc)
    ensures var after := Apply(cfg, s, e);
            Removed(after, j) && !AtRisk(after.workers[j].pc) && Own(after.db, j) == Own(s.db, j)
  {
    hide Next, Perform, Fails, Own, Purge, PurgeKb;
    RemovedEvent(cfg, s, e, j);
    EventOwn(cfg, s, e, j);
    if e.Work? && e.job == j {
      SafeNext(cfg, s.db, j, s.workers[j].doc, s.workers[j].pc, e.choice);
    }
  }

  lemma {:induction false} SafeRun(cfg: Config, s: Sys, events: seq<Event>, j: Id)
    requires Removed(s, j) && !AtRisk(s.workers[j].pc)
    ensures var after := Run(cfg, s, events);
            Removed(after, j) && !AtRisk(after.workers[j].pc) && Own(after.db, j) == Own(s.db, j)
  {
    hide Apply, Own, AtRisk;
    if events != [] {
      var n := |events| - 1;
      SafeRun(cfg, s, events[..n], j);
      SafeEvent(cfg, Run(cfg, s, events[..n]), events[n], j);
    }
  }

  /** Events of others leave a worker at risk where it is. */
  lemma OthersLeave(cfg: Config, s: Sys, e: Event, j: Id)
    requires Removed(s, j) && AtRisk(s.workers[j].pc) && !OwnMove(e, j)
    ensures var after := Apply(cfg, s, e);
            Removed(after, j) && after.workers[j] == s.workers[j] && Own(after.db, j) == Own(s.db, j)
  {
    hide Next, Perform, Fails, Own, Purge, PurgeKb;
    RemovedEvent(cfg, s, e, j);
    EventOwn(cfg, s, e, j);
  }

  /** A failure or death ends the risk. */
  lemma BrokenOff(cfg: Config, s: Sys, e: Event, j: Id)
    requires Removed(s, j) && AtRisk(s.workers[j].pc) && (e.Raise? || e.Crash?) && e.job == j
    ensures var after := Apply(cfg, s, e);
            Removed(after, j) && !AtRisk(after.workers[j].pc) && after.db == s.db
  {
    RemovedEvent(cfg, s, e, j);
  }

  /** The move at the step itself: on to the commit, or failed. */
  lemma StepRuns(cfg: Config, s: Sys, choice: Output, j: Id)
    requires Removed(s, j) && AtRisk(s.workers[j].pc) && s.workers[j].pc.at.Exec? && Own(s.db, j) == map[]
    ensures var after, pc := Apply(cfg, s, Work(j, choice)), s.workers[j].pc;
            var out := Runner(cfg, s.workers[j].doc, pc.mem, choice);
            && Removed(after, j) && Own(after.db, j) == map[] && after.workers[j].doc == s.workers[j].doc
            && if out.Some? then after.workers[j].pc == pc.(at := Ran(out.value, false))
               else !AtRisk(after.workers[j].pc)
  {
    RemovedEvent(cfg, s, Work(j, choice), j);
    RiskyLookup(cfg, s.db, j, s.workers[j].doc, s.workers[j].pc, choice);
    hide Next, Own, Runner;
    EventOwn(cfg, s, Work(j, choice), j);
  }

  /** The commit: it goes through unless the rows cannot be made or foreign keys are enforced. */
  lemma StepCommits(cfg: Config, s: Sys, choice: Output, j: Id)
    requires Removed(s, j) && AtRisk(s.workers[j].pc) && s.workers[j].pc.at.Ran? && Own(s.db, j) == map[]
    ensures var after, pc := Apply(cfg, s, Work(j, choice)), s.workers[j].pc;
            && Removed(after, j) && !AtRisk(after.workers[j].pc)
            && (Own(after.db, j) != map[] <==> !cfg.fk && WriteOf(cfg, pc.snap, pc.mem).Some?)
            && |Own(after.db, j)| <= 1
  {
    RemovedEvent(cfg, s, Work(j, choice), j);
    RiskyCommit(cfg, s.db, j, s.workers[j].doc, s.workers[j].pc, choice);
    hide Next, Own, WriteOf, Fails, Perform;
    EventOwn(cfg, s, Work(j, choice), j);
    OneAdded(Own(s.db, j), Own(Apply(cfg, s, Work(j, choice)).db, j));
  }

  lemma OneAdded(was: map<ReceiptKey, Output>, now: map<ReceiptKey, Output>)
    requires was == map[]
    ensures OneMore(was, now) ==> |now| == 1 && now != map[]
    ensures now == map[] ==> |now| == 0
  {
    if OneMore(was, now) {
      var k :| k in now && now == was[k := now[k]];
      assert now.Keys == {k} && |now| == |now.Keys|;
    }
  }

  lemma MovesCons(events: seq<Event>, j: Id)
    requires events != []
    ensures OwnMoves(events, j) ==
            if OwnMove(events[0], j) then [events[0]] + OwnMoves(events[1..], j) else OwnMoves(events[1..], j)
  {}

  lemma RunCons(cfg: Config, s: Sys, events: seq<Event>)
    requires events != []
    ensures Run(cfg, s, events) == Run(cfg, Apply(cfg, s, events[0]), events[1..])
  {
    assert events == [events[0]] + events[1..];
    RunAppend(cfg, s, [events[0]], events[1..]);
    RunOne(cfg, s, events[0]);
    hide Apply, Run;
  }

  /** After the removal a receipt appears exactly if the worker's own next events are the moves
      up to the commit, and it stays the only one. */
  lemma {:induction false} AfterRemoval(cfg: Config, s: Sys, events: seq<Event>, j: Id)
    requires Removed(s, j) && Own(s.db, j) == map[]
    ensures var own := Own(Run(cfg, s, events).db, j);
            && (own != map[] <==> ReachesCommit(cfg, s.workers[j].doc, s.workers[j].pc, OwnMoves(events, j)))
            && |own| <= 1
    decreases |events|, 0
  {
    hide Apply, Own, Run, WriteOf, Runner, OwnMoves, Removed;
    RemovedIs(s, j);
    if events == [] {
      NoEvents(cfg, s, j);
    } else if !AtRisk(s.workers[j].pc) {
      SafeRun(cfg, s, events, j);
    } else {
      var e, rest := events[0], events[1..];
      var s1 := Apply(cfg, s, e);
      RunCons(cfg, s, events);
      MovesCons(events, j);
      if !OwnMove(e, j) {
        OthersLeave(cfg, s, e, j);
        AfterRemoval(cfg, s1, rest, j);
      } else if !e.Work? {
        BrokenOff(cfg, s, e, j);
        SafeRun(cfg, s1, rest, j);
      } else {
        AfterOwnMove(cfg, s, e.choice, rest, j);
      }
    }
  }

  lemma NoEvents(cfg: Config, s: Sys, j: Id)
    ensures Run(cfg, s, []) == s && OwnMoves([], j) == []
  {
    hide Apply;
  }

  lemma {:induction false} AfterOwnMove(cfg: Config, s: Sys, choice: Output, rest: seq<Event>, j: Id)
    requires Removed(s, j) && Own(s.db, j) == map[] && AtRisk(s.workers[j].pc)
    ensures var own := Own(Run(cfg, Apply(cfg, s, Work(j, choice)), rest).db, j);
            && (own != map[] <==>
                  ReachesCommit(cfg, s.workers[j].doc, s.workers[j].pc, [Work(j, choice)] + OwnMoves(rest, j)))
            && |own| <= 1
    decreases |rest|, 1
  {
    hide Apply, Own, Run, WriteOf, Runner, OwnMoves, Removed;
    RemovedIs(s, j);
    var s1, pc := Apply(cfg, s, Work(j, choice)), s.workers[j].pc;
    if pc.at.Ran? {
      StepCommits(cfg, s, choice, j);
      SafeRun(cfg, s1, rest, j);
    } else {
      StepRuns(cfg, s, choice, j);
      if Runner(cfg, s.workers[j].doc, pc.mem, choice).Some? {
        AfterRemoval(cfg, s1, rest, j);
      } else {
        SafeRun(cfg, s1, rest, j);
      }
    }
  }

  // ---------- exactly when receipts are orphaned ----------

  /** Worker and job row agree on the document. */
  ghost predicate Matched(s: Sys, j: Id) {
    j in s.workers && (j in s.db.jobs ==> s.db.jobs[j].doc == s.workers[j].doc)
  }

  lemma MatchedEvent(cfg: Config, s: Sys, e: Event, j: Id)
    requires Matched(s, j)
    ensures Matched(Apply(cfg, s, e), j) && Apply(cfg, s, e).workers[j].doc == s.workers[j].doc
  {
    hide Next, Perform, Fails, DropDocs, DropRows, DropReceipts, DropParses, DropCitations, JobsOf;
    if Enabled(s, e) && e.Work? {
      var d := s.workers[e.job].doc;
      DeletionWins.JobDocsKept(s.db, e.job, d, Next(cfg, s.db, e.job, d, s.workers[e.job].pc, e.choice).tx, j);
    }
  }

  lemma {:induction false} MatchedRun(cfg: Config, s0: Sys, events: seq<Event>, j: Id)
    requires Matched(s0, j)
    ensures Matched(Run(cfg, s0, events), j) && Run(cfg, s0, events).workers[j].doc == s0.workers[j].doc
  {
    hide Apply;
    if events != [] {
      var n := |events| - 1;
      MatchedRun(cfg, s0, events[..n], j);
      MatchedEvent(cfg, Run(cfg, s0, events[..n]), events[n], j);
    }
  }

  /** Decided at the event that removes the job's row, by where its worker then is and by what
      that worker does next: whether the run ends with a receipt of the job.  There is never
      more than one. */
  lemma OrphansAtRemoval(cfg: Config, s0: Sys, before: seq<Event>, e: Event, after: seq<Event>, j: Id)
    requires Matched(s0, j)
    requires j in Run(cfg, s0, before).db.jobs && j !in Apply(cfg, Run(cfg, s0, before), e).db.jobs
    ensures var s, end := Run(cfg, s0, before), Run(cfg, s0, before + [e] + after);
            && j in s.workers && j !in end.db.jobs
            && (HasReceipts(end.db, j) <==>
                  ReachesCommit(cfg, s.workers[j].doc, s.workers[j].pc, OwnMoves(after, j)))
            && |Own(end.db, j)| <= 1
  {
    hide Apply, Own, Run, WriteOf, Runner, OwnMoves;
    MatchedRun(cfg, s0, before, j);
    var s := Run(cfg, s0, before);
    var s1 := Apply(cfg, s, e);
    RunAppend(cfg, s0, before + [e], after);
    RunAppend(cfg, s0, before, [e]);
    RunOne(cfg, s, e);
    RemovingEvent(cfg, s, e, j);
    AfterRemoval(cfg, s1, after, j);
    RemovedRun(cfg, s1, after, j);
    HasOwn(Run(cfg, s1, after).db, j);
    hide HasReceipts, Removed;
  }

  lemma {:induction false} RemovedRun(cfg: Config, s: Sys, events: seq<Event>, j: Id)
    requires Removed(s, j)
    ensures Removed(Run(cfg, s, events), j)
  {
    hide Apply, Removed;
    if events != [] {
      var n := |events| - 1;
      RemovedRun(cfg, s, events[..n], j);
      RemovedEvent(cfg, Run(cfg, s, events[..n]), events[n], j);
    }
  }

  /** For a job submitted in the run its rows can always be made, so that only the control point
      counts: events that leave an orphan exist exactly for a worker at risk. */
  lemma OrphanCanFollow(cfg: Config, s0: Sys, before: seq<Event>, e: Event, j: Id, d: Id)
    requires Submitted(s0, j, d)
    requires j in Run(cfg, s0, before).db.jobs && j !in Apply(cfg, Run(cfg, s0, before), e).db.jobs
    ensures var s := Run(cfg, s0, before);
            && j in s.workers
            && ((exists after :: HasReceipts(Run(cfg, s0, before + [e] + after).db, j)) <==>
                  !cfg.fk && AtRisk(s.workers[j].pc))
  {
    hide Apply, Own, Run, WriteOf, Runner, OwnMoves, HasReceipts, Submitted;
    SubmittedMatched(s0, j, d);
    MatchedRun(cfg, s0, before, j);
    var s := Run(cfg, s0, before);
    var pc := s.workers[j].pc;
    forall after
      ensures HasReceipts(Run(cfg, s0, before + [e] + after).db, j) <==>
              ReachesCommit(cfg, d, pc, OwnMoves(after, j))
    {
      OrphansAtRemoval(cfg, s0, before, e, after, j);
    }
    if !cfg.fk && AtRisk(pc) {
      RowsCanBeMade(cfg, s0, before, j, d);
      var after := UpToCommit(cfg, d, pc, j);
      assert HasReceipts(Run(cfg, s0, before + [e] + after).db, j);
    }
  }

  lemma SubmittedMatched(s: Sys, j: Id, d: Id)
    requires Submitted(s, j, d)
    ensures Matched(s, j) && s.workers[j].doc == d && j in s.db.jobs && d in s.db.docs
  {}

  lemma RowsCanBeMade(cfg: Config, s0: Sys, events: seq<Event>, j: Id, d: Id)
    requires Submitted(s0, j, d) && j in Run(cfg, s0, events).db.jobs
    ensures var s := Run(cfg, s0, events);
            j in s.workers && (s.workers[j].pc.Live? ==> WriteOf(cfg, s.workers[j].pc.snap, s.workers[j].pc.mem).Some?)
  {
    hide Submitted, Run, Settled, Good, SliceOf, WriteOf, Undisturbed, Unaccompanied;
    var s := Run(cfg, s0, events);
    DocWithJob(cfg, s0, events, j, d);
    var outs := RunKeeps(cfg, s0, events, j, d);
    RowsFit(cfg, SliceOf(s.db, j, d), s.workers[j].pc, j, d, s0.db.docs[d], outs);
  }

  lemma RowsFit(cfg: Config, sl: Slice, pc: Pc, j: Id, d: Id, doc0: Document, outs: seq<Output>)
    requires Good(cfg, sl, pc, j, d, doc0, outs)
    ensures pc.Live? ==> WriteOf(cfg, pc.snap, pc.mem).Some?
  {
    if pc.Live? {
      WriteExists(cfg, pc, d, doc0, outs);
    }
    hide Receipts, WriteOf;
  }

  /** The document goes only together with the rows of its jobs. */
  lemma {:induction false} DocWithJob(cfg: Config, s0: Sys, events: seq<Event>, j: Id, d: Id)
    requires Submitted(s0, j, d)
    ensures d in s0.db.docs && (j in Run(cfg, s0, events).db.jobs ==> d in Run(cfg, s0, events).db.docs)
  {
    hide Submitted, Apply;
    SubmittedMatched(s0, j, d);
    if events != [] {
      var n := |events| - 1;
      DocWithJob(cfg, s0, events[..n], j, d);
      MatchedRun(cfg, s0, events[..n], j);
      JobGoesToo(cfg, Run(cfg, s0, events[..n]), events[n], j, d);
    }
  }

  lemma JobGoesToo(cfg: Config, s: Sys, e: Event, j: Id, d: Id)
    requires Matched(s, j) && s.workers[j].doc == d && (j in s.db.jobs ==> d in s.db.docs)
    ensures j in Apply(cfg, s, e).db.jobs ==> d in Apply(cfg, s, e).db.docs
  {
    hide Next, Perform, Fails, DropRows, DropReceipts, DropParses, DropCitations;
    if Enabled(s, e) {
      match e
      case Work(j2, choice) =>
        var d2 := s.workers[j2].doc;
        TxJobGoesToo(s.db, j2, d2, Next(cfg, s.db, j2, d2, s.workers[j2].pc, choice).tx, j, d);
      case _ =>
    }
  }

  lemma TxJobGoesToo(db: Db, j2: Id, d2: Id, tx: Tx, j: Id, d: Id)
    requires j in db.jobs ==> db.jobs[j].doc == d && d in db.docs
    ensures j in Perform(db, j2, d2, tx).jobs ==> d in Perform(db, j2, d2, tx).docs
  {
    hide Written, Receipted, DropRows, DropReceipts, DropParses, DropCitations;
    match tx
    case StepTx(_, _, _, _, write) => DeletionWins.WrittenColumns(db, d2, write);
    case _ =>
  }

  /** Moves, and answers of the services, that take a worker at risk through its commit. */
  lemma UpToCommit(cfg: Config, d: Id, pc: Pc, j: Id) returns (after: seq<Event>)
    requires !cfg.fk && AtRisk(pc) && WriteOf(cfg, pc.snap, pc.mem).Some?
    ensures ReachesCommit(cfg, d, pc, OwnMoves(after, j))
  {
    hide WriteOf, Runner;
    var choice := SomeAnswer(cfg, d, pc.mem);
    after := [Work(j, choice), Work(j, choice)];
    assert after[1..] == [Work(j, choice)] && after[1..][1..] == [];
    assert OwnMoves(after[1..][1..], j) == [];
    assert OwnMoves(after[1..], j) == [Work(j, choice)];
    assert OwnMoves(after, j) == after;
  }

  lemma SomeAnswer(cfg: Config, d: Id, mem: seq<Output>) returns (choice: Output)
    ensures Runner(cfg, d, mem, choice).Some?
  {
    hide ChunksOf, PagesOf, ParsedOf;
    choice := if |mem| == 0 then SessionOutput("") else if |mem| == 1 then OcrOutput("", [])
              else VectorsOutput(seq(|ChunksOf(cfg, mem)|, i => []));
  }

  /** Enforced foreign keys rule such a commit out. */
  lemma ForeignKeysPreventLeaks(cfg: Config, s: Sys, e: Event, j: Id)
    requires cfg.fk
    ensures !Leaks(cfg, s, e, j)
  {
    hide Next;
  }

  // ---------- and they can be ----------

  /** The commit and the two moves that follow it on a removed document. */
  lemma LateCommit(cfg: Config, s: Sys, j: Id, d: Id, choice: Output, doc0: Document)
    requires !cfg.fk && j in s.workers && s.workers[j] == Worker(d, Live(Ran(choice, false), doc0, []))
    requires d !in s.db.docs && j !in s.db.jobs && !HasReceipts(s.db, j)
    ensures var after := Run(cfg, s, Repeat(Work(j, choice), 3));
            && Leaks(cfg, s, Work(j, choice), j)
            && d !in after.db.docs && j !in after.db.jobs && j in after.workers
            && after.workers[j].doc == d && after.workers[j].pc.Ended? && HasReceipts(after.db, j)
  {
    MovedIs(cfg, s, j, choice, 3);
    MovedNone(cfg, s, j, choice);
    FirstCommit(cfg, s, j, d, choice, doc0);
    hide Leaks, HasReceipts, Run;
    MovedOnce(cfg, s, j, choice, 0);
    var s1 := WorkStep(cfg, s, j, choice);
    CancelAfter(cfg, s1, j, d, choice);
    hide WorkStep, Moved;
    MovedOnce(cfg, s, j, choice, 1);
    MovedOnce(cfg, s, j, choice, 2);
  }

  lemma FirstCommit(cfg: Config, s: Sys, j: Id, d: Id, choice: Output, doc0: Document)
    requires !cfg.fk && j in s.workers && s.workers[j] == Worker(d, Live(Ran(choice, false), doc0, []))
    requires d !in s.db.docs && j !in s.db.jobs && !HasReceipts(s.db, j)
    ensures Leaks(cfg, s, Work(j, choice), j)
    ensures var s1 := WorkStep(cfg, s, j, choice);
            && s1.workers == s.workers[j := Worker(d, Live(Check(Do), doc0, [choice]))]
            && d !in s1.db.docs && j !in s1.db.jobs && HasReceipts(s1.db, j)
  {
    var none: seq<Output> := [];
    assert WriteOf(cfg, doc0, none) == Some(NoRows);
    var key := KeyOf(cfg, j, d, doc0.sha256, none);
    var next := Next(cfg, s.db, j, d, s.workers[j].pc, choice);
    NextCommit(cfg, s.db, j, d, s.workers[j].pc, choice);
    assert next.tx == StepTx(key.step, key.input, choice, false, NoRows);
    assert next.then_ == Live(Check(Do), doc0, [choice]);
    assert key !in s.db.receipts;
    hide Next, InputOf, WriteOf;
    TxOwn(s.db, j, d, next.tx, j);
    HasOwn(s.db, j);
    HasOwn(Perform(s.db, j, d, next.tx), j);
    DeletionWins.TxAfterRemoval(s.db, j, d, next.tx);
    hide HasReceipts;
  }

  lemma CancelAfter(cfg: Config, s: Sys, j: Id, d: Id, choice: Output)
    requires j in s.workers && s.workers[j].doc == d && s.workers[j].pc.Live? && s.workers[j].pc.at == Check(Do)
    requires d !in s.db.docs && j !in s.db.jobs && HasReceipts(s.db, j)
    ensures var s1 := WorkStep(cfg, s, j, choice);
            && j in s1.workers
            && var s2 := WorkStep(cfg, s1, j, choice);
            && j in s2.workers && s2.workers[j].doc == d && s2.workers[j].pc.Ended?
            && d !in s2.db.docs && j !in s2.db.jobs && HasReceipts(s2.db, j)
  {
    PurgedOwn(s.db, {d}, true, j);
    HasOwn(s.db, j);
    HasOwn(Purge(s.db, {d}, true), j);
    DeletionWins.PurgeColumns(s.db, {d}, true);
    hide HasReceipts, Purge;
  }

  /** The upload has answered, its receipt is not yet committed. */
  lemma UploadAnswered(cfg: Config, s0: Sys, j: Id, d: Id, choice: Output)
    requires Submitted(s0, j, d) && !cfg.fk && choice.SessionOutput?
    ensures var s2 := Apply(cfg, Run(cfg, s0, OpeningEvents(j)), Work(j, choice));
            Standing(cfg, s2, j, d, DocumentOf(s0, d), [], Live(Ran(choice, false), DocumentOf(s0, d), []))
  {
    var doc0 := DocumentOf(s0, d);
    var none: seq<Output> := [];
    SubmittedHealthy(cfg, s0, j, d);
    Opening(cfg, s0, j, d, doc0, none);
    var s1 := Run(cfg, s0, OpeningEvents(j));
    var all := none + [choice];
    assert all[..0] == none && Have(all, 0, 0) == none;
    hide Submitted, Run, Standing, OpeningEvents, Possible, Healthy, Settled;
    Known(cfg, s1, j, d, doc0, none, Live(Exec(Do), doc0, none));
    MoveRunner(cfg, s1, j, choice, d, doc0, all, 0, 0, Live(Exec(Do), doc0, none));
    hide WorkStep;
  }

  lemma DeletedThere(cfg: Config, s: Sys, j: Id, d: Id, doc0: Document, outs: seq<Output>, pc: Pc)
    requires Standing(cfg, s, j, d, doc0, outs, pc)
    ensures var after := Apply(cfg, s, DeleteDocument(d));
            && j in after.workers && after.workers[j] == Worker(d, pc)
            && d !in after.db.docs && j !in after.db.jobs && !HasReceipts(after.db, j)
  {
    hide Standing, Healthy, HasReceipts, Purge;
    StandingHealthy(cfg, s, j, d, doc0, outs, pc);
    Known(cfg, s, j, d, doc0, outs, pc);
    GoodPlace(cfg, s, j, d, doc0, outs);
    HealthyWorker(cfg, s, j, d, doc0, outs);
    PurgedOwn(s.db, {d}, true, j);
    HasOwn(s.db, j);
    HasOwn(Purge(s.db, {d}, true), j);
    DeletionWins.PurgeColumns(s.db, {d}, true);
    PurgedJob(s.db, j, d);
  }

  /** A run without foreign keys that leaves an orphan: the document is deleted between the
      upload to the OCR service and the commit of its receipt. */
  lemma OrphanReachable(cfg: Config, s0: Sys, j: Id, d: Id, session: string) returns (events: seq<Event>)
    requires !cfg.fk && Submitted(s0, j, d)
    ensures var s := Run(cfg, s0, events);
            && d !in s.db.docs && j in s.workers && s.workers[j].doc == d && s.workers[j].pc.Ended?
            && HasReceipts(s.db, j)
  {
    var choice, doc0 := SessionOutput(session), DocumentOf(s0, d);
    var none: seq<Output> := [];
    var upto := OpeningEvents(j);
    events := upto + [Work(j, choice), DeleteDocument(d)] + Repeat(Work(j, choice), 3);
    var s1 := Run(cfg, s0, upto);
    var s2 := Apply(cfg, s1, Work(j, choice));
    UploadAnswered(cfg, s0, j, d, choice);
    RunAppend(cfg, s0, upto + [Work(j, choice), DeleteDocument(d)], Repeat(Work(j, choice), 3));
    RunAppend(cfg, s0, upto, [Work(j, choice), DeleteDocument(d)]);
    RunTwo(cfg, s1, Work(j, choice), DeleteDocument(d));
    hide Submitted, Run, Standing, OpeningEvents, Apply, HasReceipts, Leaks;
    DeletedThere(cfg, s2, j, d, doc0, none, Live(Ran(choice, false), doc0, none));
    LateCommit(cfg, Apply(cfg, s2, DeleteDocument(d)), j, d, choice, doc0);
  }

  lemma PurgedJob(db: Db, j: Id, d: Id)
    requires j in db.jobs && db.jobs[j].doc == d
    ensures j !in Purge(db, {d}, true).jobs
  {
    hide DropDocs, DropRows, DropReceipts, DropParses, DropCitations;
  }

  lemma RunTwo(cfg: Config, s: Sys, a: Event, b: Event)
    ensures Run(cfg, s, [a, b]) == Apply(cfg, Apply(cfg, s, a), b)
  {
    hide Apply;
    assert [a, b][..1] == [a] && [a][..0] == [];
    assert Run(cfg, s, [a]) == Apply(cfg, s, a);
  }
}
