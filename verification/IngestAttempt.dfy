/** An attempt that nothing disturbs, driven by what the services answer: where it leads is
    decided by the committed payloads and these answers. */
module IngestAttempt {
  import opened Wrappers
  import opened Tables
  import opened Deletion
  import opened Ingest
  import opened IngestSlice
  import opened IngestRefinement
  import opened CrashRefinement
  import opened CleanRun

  /** What the world outside answers: the OCR service and the embedding model. */
  datatype Answers = Answers(upload: Output, ocr: Output, vectors: Output)

  /** The answer that step n asks for; steps that ask for none ignore it. */
  function ChoiceFor(answers: Answers, n: nat): Output {
    if n == 0 then answers.upload else if n == 1 then answers.ocr else answers.vectors
  }

  function ChoiceAt(answers: Answers, pc: Pc): Output {
    ChoiceFor(answers, if pc.Live? then |pc.mem| else 0)
  }

  /** k moves of the worker of j, answered by `answers`. */
  ghost function Ahead(cfg: Config, s: Sys, j: Id, answers: Answers, k: nat): (r: Sys)
    requires j in s.workers
    ensures j in r.workers
  {
    if k == 0 then s
    else
      var before := Ahead(cfg, s, j, answers, k - 1);
      WorkStep(cfg, before, j, ChoiceAt(answers, before.workers[j].pc))
  }

  ghost function Ahead1(cfg: Config, s: Sys, j: Id, answers: Answers): (r: Sys)
    requires j in s.workers
    ensures j in r.workers
  {
    WorkStep(cfg, s, j, ChoiceAt(answers, s.workers[j].pc))
  }

  lemma {:induction false} AheadShift(cfg: Config, s: Sys, j: Id, answers: Answers, k: nat)
    requires j in s.workers
    ensures Ahead(cfg, s, j, answers, k + 1) == Ahead(cfg, Ahead1(cfg, s, j, answers), j, answers, k)
  {
    hide WorkStep, ChoiceAt;
    if k > 0 {
      AheadShift(cfg, s, j, answers, k - 1);
    }
  }

  /** An ended attempt stays where it is. */
  lemma {:induction false} AheadStays(cfg: Config, s: Sys, j: Id, answers: Answers, k: nat, more: nat)
    requires j in s.workers && Ahead(cfg, s, j, answers, k).workers[j].pc.Ended?
    ensures Ahead(cfg, s, j, answers, k + more) == Ahead(cfg, s, j, answers, k)
  {
    hide WorkStep, ChoiceAt;
    if more > 0 {
      AheadStays(cfg, s, j, answers, k, more - 1);
      EndedStays(cfg, Ahead(cfg, s, j, answers, k), j, answers);
    }
  }

  lemma EndedStays(cfg: Config, s: Sys, j: Id, answers: Answers)
    requires j in s.workers && s.workers[j].pc.Ended?
    ensures WorkStep(cfg, s, j, ChoiceAt(answers, s.workers[j].pc)) == s
  {
    assert s.workers[j := s.workers[j]] == s.workers;
  }

  /** Two ends are the same. */
  lemma OneEnd(cfg: Config, s: Sys, j: Id, answers: Answers, a: nat, b: nat)
    requires j in s.workers
    requires Ahead(cfg, s, j, answers, a).workers[j].pc.Ended? && Ahead(cfg, s, j, answers, b).workers[j].pc.Ended?
    ensures Ahead(cfg, s, j, answers, a) == Ahead(cfg, s, j, answers, b)
  {
    hide Ahead;
    if a <= b {
      AheadStays(cfg, s, j, answers, a, b - a);
    } else {
      AheadStays(cfg, s, j, answers, b, a - b);
    }
  }

  /** These moves are a run of the transition system. */
  lemma {:induction false} AheadRuns(cfg: Config, s: Sys, j: Id, answers: Answers, k: nat) returns (events: seq<Event>)
    requires j in s.workers
    ensures |events| == k && Run(cfg, s, events) == Ahead(cfg, s, j, answers, k)
    ensures forall i | 0 <= i < k :: events[i].Work? && events[i].job == j
  {
    hide WorkStep, ChoiceAt;
    events := [];
    if k > 0 {
      var before := AheadRuns(cfg, s, j, answers, k - 1);
      var e := Work(j, ChoiceAt(answers, Ahead(cfg, s, j, answers, k - 1).workers[j].pc));
      events := before + [e];
      assert events[..k - 1] == before;
    }
  }

  // ---------- what the answers complete ----------

  /** The committed payloads, continued as far as the answers allow. */
  ghost function Completion(cfg: Config, d: Id, outs: seq<Output>, answers: Answers): seq<Output>
    decreases STEPS - |outs|
  {
    if |outs| >= STEPS then outs
    else
      var out := Runner(cfg, d, outs, ChoiceFor(answers, |outs|));
      if out.Some? then Completion(cfg, d, outs + [out.value], answers) else outs
  }

  /** Every payload after the committed ones is its runner's result on these answers, and where
      the list is short the next runner fails. */
  ghost predicate Completes(cfg: Config, d: Id, outs: seq<Output>, answers: Answers, all: seq<Output>) {
    && outs <= all && Possible(cfg, d, all) && |all| <= STEPS
    && (forall n: nat | |outs| <= n < |all| :: Runner(cfg, d, all[..n], ChoiceFor(answers, n)) == Some(all[n]))
    && (|all| < STEPS ==> Runner(cfg, d, all, ChoiceFor(answers, |all|)).None?)
  }

  lemma {:induction false} CompletionIs(cfg: Config, d: Id, outs: seq<Output>, answers: Answers)
    requires Possible(cfg, d, outs)
    ensures Completes(cfg, d, outs, answers, Completion(cfg, d, outs, answers))
    decreases STEPS - |outs|
  {
    LengthAtMost(cfg, d, outs);
    hide Possible, Runner, ChoiceFor, Completes;
    var out := if |outs| < STEPS then Runner(cfg, d, outs, ChoiceFor(answers, |outs|)) else None;
    if out.Some? {
      RunnerResult(cfg, d, outs, ChoiceFor(answers, |outs|));
      PossibleSnoc(cfg, d, outs, out.value);
      CompletionIs(cfg, d, outs + [out.value], answers);
      CompletesMore(cfg, d, outs, out.value, answers, Completion(cfg, d, outs + [out.value], answers));
    } else {
      CompletesHere(cfg, d, outs, answers);
    }
  }

  lemma CompletesHere(cfg: Config, d: Id, outs: seq<Output>, answers: Answers)
    requires Possible(cfg, d, outs) && |outs| <= STEPS
    requires |outs| < STEPS ==> Runner(cfg, d, outs, ChoiceFor(answers, |outs|)).None?
    ensures Completes(cfg, d, outs, answers, outs)
  {
    hide Possible, Runner, ChoiceFor;
  }

  lemma CompletesMore(cfg: Config, d: Id, outs: seq<Output>, out: Output, answers: Answers, all: seq<Output>)
    requires Completes(cfg, d, outs + [out], answers, all)
    requires Runner(cfg, d, outs, ChoiceFor(answers, |outs|)) == Some(out)
    ensures Completes(cfg, d, outs, answers, all)
  {
    hide Possible, Runner, ChoiceFor;
    assert all[..|outs|] == outs && all[|outs|] == out;
  }

  /** The answers allow all nine steps exactly if those still asked for have the right shape: a
      session, an OCR result, and one vector for each chunk of the markdown. */
  lemma CompletesIffShaped(cfg: Config, d: Id, outs: seq<Output>, answers: Answers)
    requires Possible(cfg, d, outs)
    ensures |Completion(cfg, d, outs, answers)| == STEPS <==>
              && (|outs| == 0 ==> answers.upload.SessionOutput?)
              && (|outs| <= 1 ==> answers.ocr.OcrOutput?)
              && (|outs| <= 4 ==>
                    answers.vectors.VectorsOutput? &&
                    |answers.vectors.vectors| ==
                    |ChunksOf(cfg, if |outs| > 1 then outs else [answers.upload, answers.ocr])|)
  {
    hide Possible, Runner, ChunksOf, Completion;
    var all := Completion(cfg, d, outs, answers);
    CompletionIs(cfg, d, outs, answers);
    ShapeOf(cfg, d, all, answers, |all|);
    assert all[..|all|] == all;
    forall n: nat | |outs| <= n < |all|
      ensures Shaped(cfg, answers, all[..n], n)
    {
      ShapeOf(cfg, d, all, answers, n);
      assert all[..n] + [all[n]] <= all;
    }
    ShapesFit(cfg, d, outs, answers, all);
  }

  /** What the runner of step n needs of the answers. */
  ghost predicate Shaped(cfg: Config, answers: Answers, mem: seq<Output>, n: nat) {
    && (n == 0 ==> answers.upload.SessionOutput?)
    && (n == 1 ==> answers.ocr.OcrOutput?)
    && (n == 4 ==> answers.vectors.VectorsOutput? && |answers.vectors.vectors| == |ChunksOf(cfg, mem)|)
  }

  lemma ShapeOf(cfg: Config, d: Id, all: seq<Output>, answers: Answers, n: nat)
    requires n <= |all|
    ensures Runner(cfg, d, all[..n], ChoiceFor(answers, n)).Some? <==> Shaped(cfg, answers, all[..n], n)
    ensures n < |all| && n <= 1 && Runner(cfg, d, all[..n], ChoiceFor(answers, n)) == Some(all[n]) ==>
              all[n] == ChoiceFor(answers, n)
  {
    hide ChunksOf, PagesOf, ParsedOf;
  }

  lemma ShapesFit(cfg: Config, d: Id, outs: seq<Output>, answers: Answers, all: seq<Output>)
    requires Completes(cfg, d, outs, answers, all)
    requires forall n: nat | |outs| <= n < |all| :: Shaped(cfg, answers, all[..n], n)
    requires |all| < STEPS ==> !Shaped(cfg, answers, all[..|all|], |all|)
    ensures |all| == STEPS <==>
              && (|outs| == 0 ==> answers.upload.SessionOutput?)
              && (|outs| <= 1 ==> answers.ocr.OcrOutput?)
              && (|outs| <= 4 ==>
                    answers.vectors.VectorsOutput? &&
                    |answers.vectors.vectors| ==
                    |ChunksOf(cfg, if |outs| > 1 then outs else [answers.upload, answers.ocr])|)
  {
    hide Runner, Possible, ChunksOf;
    if |all| >= 4 {
      var two := if |outs| > 1 then outs else [answers.upload, answers.ocr];
      if |outs| <= 4 {
        if |outs| <= 1 {
          ShapeOf(cfg, d, all, answers, 0);
          ShapeOf(cfg, d, all, answers, 1);
          assert |outs| == 1 ==> all[0] == outs[0];
        }
        SameMarkdown(cfg, all[..4], two);
      }
      if |outs| <= 4 < |all| {
        assert Shaped(cfg, answers, all[..4], 4);
      }
    }
    if |outs| == 0 < |all| {
      assert Shaped(cfg, answers, all[..0], 0);
    }
    if |outs| <= 1 < |all| {
      assert Shaped(cfg, answers, all[..1], 1);
    }
  }

  lemma SameMarkdown(cfg: Config, a: seq<Output>, b: seq<Output>)
    requires |a| > 1 && |b| > 1 && a[1] == b[1]
    ensures ChunksOf(cfg, a) == ChunksOf(cfg, b)
  {}

  // ---------- the way to the end ----------

  /** On the way: the attempt has the first payloads of `all`, k of which were committed before. */
  ghost predicate OnTheWay(cfg: Config, s: Sys, j: Id, d: Id, doc0: Document, all: seq<Output>, k: nat, pc: Pc) {
    j in s.workers && s.workers[j].pc == pc && k <= |all| && (pc.Start? || pc.Live?) &&
    var n := if pc.Live? then |pc.mem| else 0;
    && n <= |all| && n < STEPS
    && Standing(cfg, s, j, d, doc0, Have(all, k, n), pc)
    && (pc.Live? ==> pc.mem == all[..n])
    && (pc.Live? && pc.at.Ran? ==> n < |all| && pc.at == Ran(all[n], n < k))
  }

  /** It gets shorter with every move. */
  function ToGo(pc: Pc): nat {
    if !pc.Live? then 100
    else
      var left := if |pc.mem| < STEPS then 8 * (STEPS - |pc.mem|) else 0;
      match pc.at
      case Check(Begin) => left + 8
      case Exec(Begin) => left + 7
      case Check(Mark) => left + 6
      case Exec(Mark) => left + 5
      case Check(Do) => left + 4
      case Exec(Do) => left + 3
      case Ran(_, _) => left + 2
  }

  /** At the end, the job is through with its tables right, or dead for want of an answer. */
  ghost predicate AtTheEnd(cfg: Config, s: Sys, j: Id, d: Id, doc0: Document, all: seq<Output>) {
    && j in s.workers && s.workers[j].pc.Ended? && j in s.db.jobs && d in s.db.docs
    && Healthy(cfg, s, j, d, doc0, all)
    && if |all| == STEPS
       then
         && s.db.jobs[j].status == Succeeded && s.db.docs[d].status == Ready
         && Settled(cfg, SliceOf(s.db, j, d), d, doc0, all)
       else s.db.jobs[j].status == Dead && s.db.docs[d].status == Failed
  }

  ghost predicate GivingUp(cfg: Config, s: Sys, j: Id, d: Id, doc0: Document, all: seq<Output>) {
    |all| < STEPS && Healthy(cfg, s, j, d, doc0, all) && s.workers[j].pc == Failing(RUNNER_FAILED)
  }

  /** A move on the way: further on, to the end, or to the failure of a runner. */
  ghost predicate Onwards(cfg: Config, s: Sys, j: Id, d: Id, doc0: Document, all: seq<Output>, k: nat, pc: Pc) {
    || AtTheEnd(cfg, s, j, d, doc0, all) || GivingUp(cfg, s, j, d, doc0, all)
    || (j in s.workers && ToGo(s.workers[j].pc) < ToGo(pc) && OnTheWay(cfg, s, j, d, doc0, all, k, s.workers[j].pc))
  }

  lemma StandingOnwards(cfg: Config, s: Sys, j: Id, d: Id, doc0: Document, all: seq<Output>, k: nat, was: Pc, pc: Pc)
    requires OnTheWay(cfg, s, j, d, doc0, all, k, pc) && ToGo(pc) < ToGo(was)
    ensures Onwards(cfg, s, j, d, doc0, all, k, was)
  {
    hide ToGo, Healthy, Settled, SliceOf;
  }

  lemma ReadOnwards(cfg: Config, s: Sys, j: Id, choice: Output, d: Id, doc0: Document, all: seq<Output>, k: nat, pc: Pc)
    requires OnTheWay(cfg, s, j, d, doc0, all, k, pc) && (pc.Start? || pc.at.Check?)
    ensures Onwards(cfg, WorkStep(cfg, s, j, choice), j, d, doc0, all, k, pc)
  {
    hide Standing, WorkStep, Onwards;
    var next := WorkStep(cfg, s, j, choice);
    if pc.Start? {
      MoveStart(cfg, s, j, choice, d, doc0, Have(all, k, 0));
      assert all[..0] == [];
      Known(cfg, next, j, d, doc0, Have(all, k, 0), Live(Check(Begin), s.db.docs[d], []));
      StandingOnwards(cfg, next, j, d, doc0, all, k, pc, Live(Check(Begin), s.db.docs[d], []));
    } else {
      MoveCheck(cfg, s, j, choice, d, doc0, Have(all, k, |pc.mem|), pc);
      CheckShorter(pc);
      Known(cfg, next, j, d, doc0, Have(all, k, |pc.mem|), pc.(at := Exec(pc.at.phase)));
      StandingOnwards(cfg, next, j, d, doc0, all, k, pc, pc.(at := Exec(pc.at.phase)));
    }
  }

  lemma CheckShorter(pc: Pc)
    requires pc.Live? && pc.at.Check?
    ensures ToGo(pc.(at := Exec(pc.at.phase))) < ToGo(pc)
  {}

  lemma StatusOnwards(cfg: Config, s: Sys, j: Id, choice: Output, d: Id, doc0: Document, all: seq<Output>, k: nat, pc: Pc)
    requires OnTheWay(cfg, s, j, d, doc0, all, k, pc) && pc.Live? && (pc.at == Exec(Begin) || pc.at == Exec(Mark))
    ensures Onwards(cfg, WorkStep(cfg, s, j, choice), j, d, doc0, all, k, pc)
  {
    hide Standing, WorkStep, Onwards;
    MoveStatus(cfg, s, j, choice, d, doc0, Have(all, k, |pc.mem|), pc);
    var pc' := pc.(at := if pc.at == Exec(Begin) then Entry(0) else Check(Do));
    Known(cfg, WorkStep(cfg, s, j, choice), j, d, doc0, Have(all, k, |pc.mem|), pc');
    StandingOnwards(cfg, WorkStep(cfg, s, j, choice), j, d, doc0, all, k, pc, pc');
  }

  lemma CommitOnwards(cfg: Config, s: Sys, j: Id, choice: Output, d: Id, doc0: Document, all: seq<Output>, k: nat, pc: Pc)
    requires OnTheWay(cfg, s, j, d, doc0, all, k, pc) && pc.Live? && pc.at.Ran?
    ensures Onwards(cfg, WorkStep(cfg, s, j, choice), j, d, doc0, all, k, pc)
  {
    hide Standing, WorkStep, Onwards;
    var n := |pc.mem|;
    RanShort(cfg, s, j, d, doc0, Have(all, k, n), pc);
    MoveCommit(cfg, s, j, choice, d, doc0, all, k, n, pc);
    var pc' := Live(Entry(n + 1), pc.snap, all[..n + 1]);
    Known(cfg, WorkStep(cfg, s, j, choice), j, d, doc0, Have(all, k, n + 1), pc');
    StandingOnwards(cfg, WorkStep(cfg, s, j, choice), j, d, doc0, all, k, pc, pc');
  }

  lemma RanShort(cfg: Config, s: Sys, j: Id, d: Id, doc0: Document, outs: seq<Output>, pc: Pc)
    requires Standing(cfg, s, j, d, doc0, outs, pc) && pc.Live? && pc.at.Ran?
    ensures |pc.mem| < STEPS - 1
  {
    hide Settled, Receipts, Possible, Runner;
  }

  lemma StepOnwards(cfg: Config, s: Sys, j: Id, answers: Answers, d: Id, doc0: Document, all: seq<Output>,
                    outs: seq<Output>, pc: Pc)
    requires OnTheWay(cfg, s, j, d, doc0, all, |outs|, pc) && pc.Live? && pc.at == Exec(Do)
    requires Completes(cfg, d, outs, answers, all)
    ensures Onwards(cfg, WorkStep(cfg, s, j, ChoiceFor(answers, |pc.mem|)), j, d, doc0, all, |outs|, pc)
  {
    hide Standing, WorkStep, Onwards, Possible, Runner, ChoiceFor;
    var n, k, choice := |pc.mem|, |outs|, ChoiceFor(answers, |pc.mem|);
    var next := WorkStep(cfg, s, j, choice);
    if n == STEPS - 1 {
      LastRunner(cfg, d, all, answers);
      LastIsReady(cfg, d, all, k);
      MoveFinish(cfg, s, j, choice, d, doc0, Have(all, k, n), pc);
      FinishedOnwards(cfg, next, j, d, doc0, all, k, pc);
    } else if n < |all| {
      MoveRunner(cfg, s, j, choice, d, doc0, all, k, n, pc);
      Known(cfg, next, j, d, doc0, Have(all, k, n), pc.(at := Ran(all[n], n < k)));
      StandingOnwards(cfg, next, j, d, doc0, all, k, pc, pc.(at := Ran(all[n], n < k)));
    } else {
      RunnerGivesUp(cfg, s, j, choice, d, doc0, all, k, pc);
    }
  }

  /** The last step's runner cannot fail, so that eight payloads are always continued by a ninth. */
  lemma LastRunner(cfg: Config, d: Id, all: seq<Output>, answers: Answers)
    requires STEPS - 1 <= |all| <= STEPS
    requires |all| < STEPS ==> Runner(cfg, d, all, ChoiceFor(answers, |all|)).None?
    ensures |all| == STEPS
  {
    hide ChunksOf, PagesOf, ParsedOf;
  }

  lemma FinishedOnwards(cfg: Config, s: Sys, j: Id, d: Id, doc0: Document, all: seq<Output>, k: nat, pc: Pc)
    requires k <= |all| == STEPS && Standing(cfg, s, j, d, doc0, all[..STEPS], Ended)
    requires j in s.db.jobs && s.db.jobs[j].status == Succeeded && d in s.db.docs && s.db.docs[d].status == Ready
    ensures Onwards(cfg, s, j, d, doc0, all, k, pc)
  {
    assert all[..STEPS] == all;
    hide Healthy, Settled, SliceOf;
  }

  lemma RunnerGivesUp(cfg: Config, s: Sys, j: Id, choice: Output, d: Id, doc0: Document, all: seq<Output>, k: nat, pc: Pc)
    requires OnTheWay(cfg, s, j, d, doc0, all, k, pc) && pc.Live? && pc.at == Exec(Do)
    requires |pc.mem| == |all| < STEPS - 1 && Runner(cfg, d, all, choice).None?
    ensures Onwards(cfg, WorkStep(cfg, s, j, choice), j, d, doc0, all, k, pc)
  {
    var outs := Have(all, k, |all|);
    assert all[..|all|] == all && outs == all && pc.mem == all;
    StandingHealthy(cfg, s, j, d, doc0, all, pc);
    Known(cfg, s, j, d, doc0, all, pc);
    GoodPlace(cfg, s, j, d, doc0, all);
    NotCommitted(cfg, s, j, d, doc0, all, pc);
    hide Standing, Healthy, Runner, KeyOf;
    WorkerMoved(cfg, s, j, Failing(RUNNER_FAILED), j, d, doc0, all);
    FailingAt(cfg, s, j, choice, d, pc);
    hide WorkStep, ToGo;
    OnwardIs(cfg, s, WorkStep(cfg, s, j, choice), j, d, doc0, all, all);
  }

  lemma NotCommitted(cfg: Config, s: Sys, j: Id, d: Id, doc0: Document, outs: seq<Output>, pc: Pc)
    requires Healthy(cfg, s, j, d, doc0, outs) && s.workers[j].pc == pc && pc.Live? && |pc.mem| == |outs| < STEPS
    ensures KeyOf(cfg, j, d, pc.snap.sha256, pc.mem) !in s.db.receipts
  {
    hide Good, KeyOf;
    LookupIs(cfg, s.db, j, d, pc, doc0, outs);
  }

  lemma FailingAt(cfg: Config, s: Sys, j: Id, choice: Output, d: Id, pc: Pc)
    requires j in s.workers && s.workers[j] == Worker(d, pc) && pc.Live? && pc.at == Exec(Do) && |pc.mem| < STEPS - 1
    requires KeyOf(cfg, j, d, pc.snap.sha256, pc.mem) !in s.db.receipts && Runner(cfg, d, pc.mem, choice).None?
    ensures WorkStep(cfg, s, j, choice) == At(s, j, Failing(RUNNER_FAILED))
  {
    hide KeyOf, Runner;
  }

  /** Two more moves dead-letter the job. */
  lemma GivenUp(cfg: Config, s: Sys, j: Id, answers: Answers, d: Id, doc0: Document, all: seq<Output>)
    requires GivingUp(cfg, s, j, d, doc0, all)
    ensures j in s.workers && AtTheEnd(cfg, Ahead(cfg, s, j, answers, 2), j, d, doc0, all)
  {
    hide Good, SliceOf, Settled;
    GoodPlace(cfg, s, j, d, doc0, all);
    var s1 := Ahead1(cfg, s, j, answers);
    FailingDead(cfg, s, j, ChoiceAt(answers, s.workers[j].pc), d);
    var longer1 := OwnWork(cfg, s, j, ChoiceAt(answers, s.workers[j].pc), d, doc0, all);
    OnwardIs(cfg, s, s1, j, d, doc0, all, longer1);
    DeadEnds(cfg, s1, j, ChoiceAt(answers, s1.workers[j].pc), d);
    var longer2 := OwnWork(cfg, s1, j, ChoiceAt(answers, s1.workers[j].pc), d, doc0, all);
    OnwardIs(cfg, s1, Ahead1(cfg, s1, j, answers), j, d, doc0, all, longer2);
    hide WorkStep, ChoiceAt, Healthy;
    AheadShift(cfg, s, j, answers, 1);
    AheadShift(cfg, s1, j, answers, 0);
  }

  lemma FailingDead(cfg: Config, s: Sys, j: Id, choice: Output, d: Id)
    requires j in s.workers && s.workers[j].doc == d && s.workers[j].pc == Failing(RUNNER_FAILED)
    requires !CancelledOrDeleted(s.db, j, d)
    ensures WorkStep(cfg, s, j, choice) == At(s, j, DeadLettering(RUNNER_FAILED))
    ensures forall outs :: Grown(cfg, s, Work(j, choice), j, outs) == outs
  {}

  lemma DeadEnds(cfg: Config, s: Sys, j: Id, choice: Output, d: Id)
    requires j in s.workers && s.workers[j] == Worker(d, DeadLettering(RUNNER_FAILED)) && j in s.db.jobs && d in s.db.docs
    ensures var next := WorkStep(cfg, s, j, choice);
            && j in next.workers && next.workers[j].pc.Ended? && j in next.db.jobs && next.db.jobs[j].status == Dead
            && d in next.db.docs && next.db.docs[d].status == Failed
    ensures forall outs :: Grown(cfg, s, Work(j, choice), j, outs) == outs
  {
    hide Cut;
  }

  lemma MoveOnwards(cfg: Config, s: Sys, j: Id, answers: Answers, d: Id, doc0: Document, all: seq<Output>,
                    outs: seq<Output>, pc: Pc)
    requires OnTheWay(cfg, s, j, d, doc0, all, |outs|, pc) && Completes(cfg, d, outs, answers, all)
    ensures Onwards(cfg, WorkStep(cfg, s, j, ChoiceAt(answers, pc)), j, d, doc0, all, |outs|, pc)
  {
    hide Onwards, WorkStep, Completes, ChoiceFor, OnTheWay;
    WayPc(cfg, s, j, d, doc0, all, |outs|, pc);
    var choice := ChoiceAt(answers, pc);
    if pc.Start? {
      ReadOnwards(cfg, s, j, choice, d, doc0, all, |outs|, pc);
    } else {
      match pc.at
      case Check(_) => ReadOnwards(cfg, s, j, choice, d, doc0, all, |outs|, pc);
      case Ran(_, _) => CommitOnwards(cfg, s, j, choice, d, doc0, all, |outs|, pc);
      case Exec(phase) =>
        match phase
        case Do => StepOnwards(cfg, s, j, answers, d, doc0, all, outs, pc);
        case Begin => StatusOnwards(cfg, s, j, choice, d, doc0, all, |outs|, pc);
        case Mark => StatusOnwards(cfg, s, j, choice, d, doc0, all, |outs|, pc);
    }
  }

  lemma WayPc(cfg: Config, s: Sys, j: Id, d: Id, doc0: Document, all: seq<Output>, k: nat, pc: Pc)
    requires OnTheWay(cfg, s, j, d, doc0, all, k, pc)
    ensures (pc.Start? || pc.Live?) && j in s.workers && s.workers[j].pc == pc
  {
    hide Healthy, Settled;
  }

  /** From anywhere on the way some number of moves leads to the end. */
  lemma {:induction false} WayEnds(cfg: Config, s: Sys, j: Id, answers: Answers, d: Id, doc0: Document,
                                   all: seq<Output>, outs: seq<Output>, pc: Pc) returns (m: nat)
    requires OnTheWay(cfg, s, j, d, doc0, all, |outs|, pc) && Completes(cfg, d, outs, answers, all)
    ensures j in s.workers && AtTheEnd(cfg, Ahead(cfg, s, j, answers, m), j, d, doc0, all)
    decreases ToGo(pc)
  {
    hide OnTheWay, WorkStep, Completes, ChoiceAt, AtTheEnd, GivingUp, ToGo;
    WayPc(cfg, s, j, d, doc0, all, |outs|, pc);
    MoveOnwards(cfg, s, j, answers, d, doc0, all, outs, pc);
    var next := Ahead1(cfg, s, j, answers);
    if AtTheEnd(cfg, next, j, d, doc0, all) {
      m := 0;
      assert Ahead(cfg, next, j, answers, 0) == next;
    } else if GivingUp(cfg, next, j, d, doc0, all) {
      GivenUp(cfg, next, j, answers, d, doc0, all);
      m := 2;
    } else {
      m := WayEnds(cfg, next, j, answers, d, doc0, all, outs, next.workers[j].pc);
    }
    AheadShift(cfg, s, j, answers, m);
    m := m + 1;
    hide Ahead;
  }

  /** A delivered attempt that nothing disturbs ends, and where it ends is decided by what was
      committed and what the services answer: with the job through and its tables right if these
      complete the nine payloads, and otherwise with the job dead. */
  lemma AttemptEnds(cfg: Config, s: Sys, j: Id, d: Id, answers: Answers, doc0: Document, outs: seq<Output>, m: nat)
    requires Healthy(cfg, s, j, d, doc0, outs) && s.workers[j].pc.Start? && (cfg.fk ==> doc0.kb in s.db.kbs)
    requires Ahead(cfg, s, j, answers, m).workers[j].pc.Ended?
    ensures AtTheEnd(cfg, Ahead(cfg, s, j, answers, m), j, d, doc0, Completion(cfg, d, outs, answers))
  {
    hide Ahead, Completion, Completes, AtTheEnd, OnTheWay, Possible;
    HealthyFacts(cfg, s, j, d, doc0, outs);
    CompletionIs(cfg, d, outs, answers);
    var all := Completion(cfg, d, outs, answers);
    StartsOut(cfg, s, j, d, doc0, all, outs, answers);
    var n := WayEnds(cfg, s, j, answers, d, doc0, all, outs, Start);
    EndIs(cfg, Ahead(cfg, s, j, answers, n), j, d, doc0, all);
    OneEnd(cfg, s, j, answers, n, m);
  }

  lemma StartsOut(cfg: Config, s: Sys, j: Id, d: Id, doc0: Document, all: seq<Output>, outs: seq<Output>,
                  answers: Answers)
    requires Healthy(cfg, s, j, d, doc0, outs) && s.workers[j].pc.Start? && (cfg.fk ==> doc0.kb in s.db.kbs)
    requires Completes(cfg, d, outs, answers, all)
    ensures OnTheWay(cfg, s, j, d, doc0, all, |outs|, Start)
  {
    HealthyFacts(cfg, s, j, d, doc0, outs);
    NothingPassed(cfg, SliceOf(s.db, j, d), d, doc0);
    assert all[..|outs|] == outs;
    hide Healthy, Settled, SliceOf, Possible, Runner;
  }

  lemma EndIs(cfg: Config, s: Sys, j: Id, d: Id, doc0: Document, all: seq<Output>)
    requires AtTheEnd(cfg, s, j, d, doc0, all)
    ensures j in s.workers && s.workers[j].pc.Ended?
  {
    hide Healthy, Settled, SliceOf;
  }
}
