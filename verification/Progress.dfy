/** The status and percentage a document shows while it is being ingested. */
module Progress {
  import opened Tables
  import opened Ingest

  function StepProgress(s: Step): nat {
    match s
    case UploadToOcr => 15
    case PollAndFetchOcr => 35
    case ParseOutline => 45
    case SectionAwareChunk => 55
    case EmbedBatch => 70
    case TrackAWrite => 82
    case TrackBWrite => 90
    case AssetRegister => 96
    case Finalize => 100
  }

  function StepPhase(s: Step): DocStatus {
    match s
    case UploadToOcr => Ocr
    case PollAndFetchOcr => Ocr
    case ParseOutline => Embedding
    case SectionAwareChunk => Embedding
    case EmbedBatch => Embedding
    case TrackAWrite => VectorIndexing
    case TrackBWrite => VectorIndexing
    case AssetRegister => VectorIndexing
    case Finalize => Ready
  }

  predicate IsPhase(s: DocStatus) {
    s == Pending || s == Ocr || s == Embedding || s == VectorIndexing || s == Ready
  }

  function Rank(s: DocStatus): nat {
    if s == Ocr then 1 else if s == Embedding then 2 else if s == VectorIndexing then 3 else if s == Ready then 4 else 0
  }

  function Normalize(s: DocStatus): DocStatus {
    if s == Parsing then Embedding else if s == Indexing then VectorIndexing else s
  }

  predicate Final(s: DocStatus) {
    s == Ready || s == Failed || s == Disabled || s == Deleting
  }

  function Max(a: nat, b: nat): nat {
    if a < b then b else a
  }

  // ---------- the status ----------

  /** The highest of a phase and the phases of the receipted steps among the first k. */
  function HighestPhase(phase: DocStatus, done: set<Step>, k: nat): (r: DocStatus) {
    if k == 0 then phase
    else
      var below := HighestPhase(phase, done, k - 1);
      if StepAt(k - 1) in done && Rank(below) < Rank(StepPhase(StepAt(k - 1))) then StepPhase(StepAt(k - 1)) else below
  }

  /** It is an upper bound, and attained. */
  lemma {:induction false} HighestPhaseIs(phase: DocStatus, done: set<Step>, k: nat)
    requires IsPhase(phase)
    ensures var r := HighestPhase(phase, done, k);
            && IsPhase(r) && Rank(phase) <= Rank(r)
            && (forall i: nat | i < k && StepAt(i) in done :: Rank(StepPhase(StepAt(i))) <= Rank(r))
            && (r == phase || exists i: nat :: i < k && StepAt(i) in done && r == StepPhase(StepAt(i)))
  {
    if k > 0 {
      HighestPhaseIs(phase, done, k - 1);
      hide StepAt;
      hide HighestPhase;
      HighestPhaseStep(phase, done, k);
    }
  }

  lemma HighestPhaseStep(phase: DocStatus, done: set<Step>, k: nat)
    requires k > 0
    ensures var below := HighestPhase(phase, done, k - 1);
            HighestPhase(phase, done, k) ==
            if StepAt(k - 1) in done && Rank(below) < Rank(StepPhase(StepAt(k - 1))) then StepPhase(StepAt(k - 1)) else below
  {}

  /** Later steps belong to later phases. */
  lemma PhasesAscend(a: nat, b: nat)
    requires a <= b
    ensures Rank(StepPhase(StepAt(a))) <= Rank(StepPhase(StepAt(b)))
  {}

  /** Nothing receipted from k on: the first k steps decide. */
  lemma {:induction false} HighestPhaseCut(phase: DocStatus, done: set<Step>, k: nat, n: nat)
    requires k <= n && forall i: nat | k <= i < n :: StepAt(i) !in done
    ensures HighestPhase(phase, done, n) == HighestPhase(phase, done, k)
  {
    hide StepAt;
    if k < n {
      HighestPhaseCut(phase, done, k, n - 1);
    }
  }

  function ShownStatus(doc: DocStatus, job: JobStatus, done: set<Step>): DocStatus {
    var normalized := Normalize(doc);
    if Final(normalized) then normalized
    else if job == Succeeded || Finalize in done then Ready
    else if job == Dead || job == JobFailed then Failed
    else HighestPhase(if IsPhase(normalized) then normalized else Pending, done, STEPS)
  }

  /** `_progress_status`: the last receipted step alone decides, because later steps belong
      to later phases. */
  method ProgressStatus(doc: DocStatus, job: JobStatus, done: set<Step>) returns (status: DocStatus)
    ensures status == ShownStatus(doc, job, done)
  {
    var normalized := Normalize(doc);
    if Final(normalized) {
      return normalized;
    }
    if job == Succeeded || Finalize in done {
      return Ready;
    }
    if job == Dead || job == JobFailed {
      return Failed;
    }
    var phase := if IsPhase(normalized) then normalized else Pending;
    var i: nat := STEPS;
    while i > 0
      invariant i <= STEPS && forall k: nat | i <= k < STEPS :: StepAt(k) !in done
    {
      i := i - 1;
      var step := StepAt(i);
      if step in done {
        LastStepDecides(phase, done, i);
        var receiptPhase := StepPhase(step);
        if Rank(receiptPhase) > Rank(phase) {
          return receiptPhase;
        }
        return phase;
      }
    }
    HighestPhaseCut(phase, done, 0, STEPS);
    return phase;
  }

  lemma LastStepDecides(phase: DocStatus, done: set<Step>, i: nat)
    requires IsPhase(phase) && i < STEPS && StepAt(i) in done && forall k: nat | i < k < STEPS :: StepAt(k) !in done
    ensures HighestPhase(phase, done, STEPS) ==
            if Rank(StepPhase(StepAt(i))) > Rank(phase) then StepPhase(StepAt(i)) else phase
  {
    hide StepAt, StepPhase;
    HighestPhaseCut(phase, done, i + 1, STEPS);
    HighestPhaseIs(phase, done, i);
    HighestPhaseStep(phase, done, i + 1);
    forall k: nat | k < i
      ensures Rank(StepPhase(StepAt(k))) <= Rank(StepPhase(StepAt(i)))
    {
      PhasesAscend(k, i);
    }
    SameRank(HighestPhase(phase, done, i), StepPhase(StepAt(i)));
    SameRank(HighestPhase(phase, done, i), phase);
    StepPhaseIsPhase(StepAt(i));
  }

  lemma StepPhaseIsPhase(s: Step)
    ensures IsPhase(StepPhase(s)) && 0 < Rank(StepPhase(s))
  {}

  lemma SameRank(a: DocStatus, b: DocStatus)
    ensures IsPhase(a) && IsPhase(b) && Rank(a) == Rank(b) ==> a == b
  {}

  // ---------- the percentage ----------

  function TopProgress(done: set<Step>, k: nat): nat {
    if k == 0 then 0
    else if StepAt(k - 1) in done then Max(TopProgress(done, k - 1), StepProgress(StepAt(k - 1)))
    else TopProgress(done, k - 1)
  }

  function Floor(status: DocStatus): nat {
    if status == Ocr then 8 else if status == Embedding then 40 else if status == VectorIndexing then 75 else 0
  }

  /** `_progress_percent`. */
  function Percent(status: DocStatus, job: JobStatus, done: set<Step>): nat {
    if status == Ready || job == Succeeded then 100
    else if status == Pending then 0
    else if done == {} then Floor(status)
    else
      var shown := Max(TopProgress(done, STEPS), Floor(status));
      if shown < 99 then shown else 99
  }

  /** What the progress request answers. */
  function Shown(doc: DocStatus, job: JobStatus, done: set<Step>): nat {
    Percent(ShownStatus(doc, job, done), job, done)
  }

  lemma {:induction false} TopProgressIs(done: set<Step>, k: nat)
    requires k <= STEPS
    ensures forall i: nat | i < k && StepAt(i) in done :: StepProgress(StepAt(i)) <= TopProgress(done, k)
    ensures TopProgress(done, k) == 0 ||
            exists i: nat :: i < k && StepAt(i) in done && TopProgress(done, k) == StepProgress(StepAt(i))
  {
    hide StepAt, StepProgress;
    if k > 0 {
      TopProgressIs(done, k - 1);
    }
  }

  function IndexOf(s: Step): (i: nat)
    ensures i < STEPS && StepAt(i) == s
  {
    match s
    case UploadToOcr => 0
    case PollAndFetchOcr => 1
    case ParseOutline => 2
    case SectionAwareChunk => 3
    case EmbedBatch => 4
    case TrackAWrite => 5
    case TrackBWrite => 6
    case AssetRegister => 7
    case Finalize => 8
  }

  /** Whatever the status columns say, a receipted step is never shown as less than its value. */
  lemma NeverBelowReceipts(doc: DocStatus, job: JobStatus, done: set<Step>, s: Step)
    requires s in done
    ensures Shown(doc, job, done) >= StepProgress(s) || Shown(doc, job, done) >= 99
  {
    hide StepAt, HighestPhase, TopProgress, StepPhase, StepProgress;
    var i := IndexOf(s);
    TopProgressIs(done, STEPS);
    assert StepAt(i) in done;
    var normalized := Normalize(doc);
    var phase := if IsPhase(normalized) then normalized else Pending;
    HighestPhaseIs(phase, done, STEPS);
    StepPhaseIsPhase(s);
    assert Rank(StepPhase(StepAt(i))) <= Rank(HighestPhase(phase, done, STEPS));
  }

  /** 100 is shown exactly for a ready document, a succeeded job, or a final receipt in a
      document that is neither failed, disabled nor being deleted. */
  lemma HundredExactly(doc: DocStatus, job: JobStatus, done: set<Step>)
    ensures Shown(doc, job, done) == 100 <==>
            doc == Ready || job == Succeeded || (Finalize in done && !Final(doc))
  {
    hide StepAt, TopProgress, StepProgress, HighestPhase;
    var normalized := Normalize(doc);
    var phase := if IsPhase(normalized) then normalized else Pending;
    if !Final(normalized) && Finalize !in done {
      NotYetReady(phase, done);
    }
  }

  lemma NotYetReady(phase: DocStatus, done: set<Step>)
    requires IsPhase(phase) && phase != Ready && Finalize !in done
    ensures HighestPhase(phase, done, STEPS) != Ready
  {
    hide HighestPhase;
    HighestPhaseIs(phase, done, STEPS);
  }

  /** A document and job still moving forward. */
  predicate Moving(doc: DocStatus, job: JobStatus, done: set<Step>) {
    IsPhase(doc) && job != Dead && job != JobFailed && (doc == Ready || job == Succeeded ==> Finalize in done)
  }

  lemma {:induction false} HighestPhaseGrows(a: DocStatus, b: DocStatus, done: set<Step>, more: set<Step>, k: nat)
    requires Rank(a) <= Rank(b) && done <= more
    ensures Rank(HighestPhase(a, done, k)) <= Rank(HighestPhase(b, more, k))
  {
    hide StepAt, StepPhase;
    if k > 0 {
      HighestPhaseGrows(a, b, done, more, k - 1);
    }
  }

  lemma {:induction false} TopProgressGrows(done: set<Step>, more: set<Step>, k: nat)
    requires done <= more
    ensures TopProgress(done, k) <= TopProgress(more, k)
  {
    hide StepAt, StepProgress;
    if k > 0 {
      TopProgressGrows(done, more, k - 1);
    }
  }

  lemma FloorGrows(a: DocStatus, b: DocStatus)
    requires IsPhase(a) && IsPhase(b) && Rank(a) <= Rank(b) && b != Ready
    ensures Floor(a) <= Floor(b)
  {}

  lemma PercentGrows(a: DocStatus, jobA: JobStatus, done: set<Step>, b: DocStatus, jobB: JobStatus, more: set<Step>)
    requires IsPhase(a) && IsPhase(b) && Rank(a) <= Rank(b) && b != Ready && done <= more
    requires jobA != Succeeded && jobB != Succeeded
    ensures Percent(a, jobA, done) <= Percent(b, jobB, more)
  {
    hide StepAt, TopProgress, StepProgress;
    TopProgressGrows(done, more, STEPS);
    FloorGrows(a, b);
    EmptyTop(done, STEPS);
    assert a != Ready && (b == Pending ==> a == Pending);
    hide Floor, IsPhase, Rank;
  }

  /** While it is moving, the status shown is the highest phase. */
  lemma ShownMoving(a: DocStatus, job: JobStatus, done: set<Step>)
    requires Moving(a, job, done)
    ensures Finalize in done ==> Shown(a, job, done) == 100
    ensures Finalize !in done ==>
              var status := HighestPhase(a, done, STEPS);
              IsPhase(status) && status != Ready && job != Succeeded && Shown(a, job, done) == Percent(status, job, done)
  {
    hide StepAt, TopProgress, StepProgress, HighestPhase;
    if Finalize !in done {
      NotYetReady(a, done);
      HighestPhaseIs(a, done, STEPS);
    }
    hide Percent, StepPhase;
    assert Finalize in done ==> Shown(a, job, done) == 100 by {
      assert Percent(Ready, job, done) == 100 by { PercentOfReady(job, done); }
    }
  }

  lemma PercentOfReady(job: JobStatus, done: set<Step>)
    ensures Percent(Ready, job, done) == 100
  {}

  lemma PercentTop(status: DocStatus, job: JobStatus, done: set<Step>)
    ensures Percent(status, job, done) <= 100
  {
    hide TopProgress;
  }

  /** The percentage follows the status and the receipts. */
  lemma ProgressGrows(a: DocStatus, jobA: JobStatus, done: set<Step>, b: DocStatus, jobB: JobStatus, more: set<Step>)
    requires Moving(a, jobA, done) && Moving(b, jobB, more) && Rank(a) <= Rank(b) && done <= more
    ensures Shown(a, jobA, done) <= Shown(b, jobB, more)
  {
    hide *;
    ShownMoving(a, jobA, done);
    ShownMoving(b, jobB, more);
    var x, y := HighestPhase(a, done, STEPS), HighestPhase(b, more, STEPS);
    HighestPhaseGrows(a, b, done, more, STEPS);
    if Finalize in more {
      assert Shown(a, jobA, done) <= 100 by {
        ShownTop(a, jobA, done);
      }
    } else {
      PercentGrows(x, jobA, done, y, jobB, more);
    }
  }

  lemma ShownTop(a: DocStatus, job: JobStatus, done: set<Step>)
    ensures Shown(a, job, done) <= 100
  {
    PercentTop(ShownStatus(a, job, done), job, done);
    hide Percent, ShownStatus;
  }

  lemma {:induction false} EmptyTop(done: set<Step>, k: nat)
    ensures done == {} ==> TopProgress(done, k) == 0
  {
    hide StepAt, StepProgress;
    if k > 0 {
      EmptyTop(done, k - 1);
    }
  }

  // ---------- the percentage in closed form ----------

  function Least(a: nat, b: nat): nat {
    if a < b then a else b
  }

  lemma FloorBelow(s: Step)
    ensures s != Finalize ==> Floor(StepPhase(s)) <= StepProgress(s) <= 96
    ensures Floor(StepPhase(s)) <= 75 && StepProgress(s) <= 100
  {}

  /** The floor of a phase reached by receipts is never above what the receipts are worth. */
  lemma FloorOfHighest(phase: DocStatus, done: set<Step>)
    requires IsPhase(phase) && phase != Ready && Finalize !in done
    ensures var top := TopProgress(done, STEPS);
            && top <= 96
            && Max(top, Floor(HighestPhase(phase, done, STEPS))) == Max(top, Floor(phase))
            && HighestPhase(phase, done, STEPS) != Ready
            && (HighestPhase(phase, done, STEPS) == Pending ==> phase == Pending && top == 0)
  {
    hide HighestPhase, TopProgress, StepAt, StepProgress, StepPhase;
    HighestPhaseIs(phase, done, STEPS);
    TopProgressIs(done, STEPS);
    NotYetReady(phase, done);
    var r, top := HighestPhase(phase, done, STEPS), TopProgress(done, STEPS);
    if top != 0 {
      var i: nat :| i < STEPS && StepAt(i) in done && top == StepProgress(StepAt(i));
      FloorBelow(StepAt(i));
      StepPhaseIsPhase(StepAt(i));
      assert Rank(StepPhase(StepAt(i))) <= Rank(r);
    }
    FloorGrows(phase, r);
    if r != phase {
      var i: nat :| i < STEPS && StepAt(i) in done && r == StepPhase(StepAt(i));
      FloorBelow(StepAt(i));
      StepPhaseIsPhase(StepAt(i));
    }
  }

  lemma TopOfNothing(done: set<Step>)
    ensures done == {} ==> TopProgress(done, STEPS) == 0
  {
    EmptyTop(done, STEPS);
  }

  lemma PercentOfPhase(phase: DocStatus, job: JobStatus, done: set<Step>)
    requires IsPhase(phase) && phase != Ready && Finalize !in done && job != Succeeded
    ensures Percent(HighestPhase(phase, done, STEPS), job, done) == Max(TopProgress(done, STEPS), Floor(phase))
  {
    hide HighestPhase, TopProgress, StepAt, StepProgress, StepPhase, Rank;
    TopOfNothing(done);
    FloorOfHighest(phase, done);
    var r := HighestPhase(phase, done, STEPS);
    assert Floor(r) <= 75;
    assert done == {} ==> Max(0, Floor(r)) == Floor(r);
  }

  /** Failed, disabled or being deleted. */
  lemma PercentOfOther(status: DocStatus, job: JobStatus, done: set<Step>)
    requires !IsPhase(status) && job != Succeeded && Floor(status) == 0
    ensures Percent(status, job, done) == Least(TopProgress(done, STEPS), 99)
  {
    hide TopProgress;
    TopOfNothing(done);
  }

  /** The percentage in closed form: 100 once done, the best receipt (99 at most) when failed,
      disabled or being deleted, and otherwise the best receipt or the floor of the document's
      own status, whichever is more. */
  lemma ShownIs(doc: DocStatus, job: JobStatus, done: set<Step>)
    ensures var top := TopProgress(done, STEPS);
            Shown(doc, job, done) ==
            if doc == Ready || job == Succeeded || (Finalize in done && !Final(doc)) then 100
            else if Final(doc) || job == Dead || job == JobFailed then Least(top, 99)
            else Max(top, Floor(Normalize(doc)))
  {
    hide HighestPhase, TopProgress, Percent, Least, Max;
    var normalized := Normalize(doc);
    var phase := if IsPhase(normalized) then normalized else Pending;
    PercentOfReady(job, done);
    if job == Succeeded {
      PercentOfSuccess(ShownStatus(doc, job, done), done);
    } else if Final(normalized) && normalized != Ready {
      PercentOfOther(normalized, job, done);
    } else if Finalize !in done && (job == Dead || job == JobFailed) {
      PercentOfOther(Failed, job, done);
    } else if normalized != Ready && Finalize !in done {
      PercentOfPhase(phase, job, done);
    }
  }

  lemma PercentOfSuccess(status: DocStatus, done: set<Step>)
    ensures Percent(status, Succeeded, done) == 100
  {}

  /** The status shows more than the receipts are worth. */
  predicate OnFloor(doc: DocStatus, job: JobStatus, done: set<Step>) {
    && !Final(doc) && job != Succeeded && job != Dead && job != JobFailed && Finalize !in done
    && TopProgress(done, STEPS) < Floor(Normalize(doc))
  }

  /** Going (back) to `status` shows less than the document's own status and receipts do. */
  predicate FallsTo(status: DocStatus, doc: DocStatus, job: JobStatus, done: set<Step>) {
    Finalize !in done &&
    (doc == Ready || job == Succeeded || (OnFloor(doc, job, done) && Floor(status) < Floor(Normalize(doc))))
  }

  /** When a document put to a phase before the last shows less: `now` is the job's status then,
      the same as before or running. */
  lemma StatusDrop(status: DocStatus, now: JobStatus, doc: DocStatus, job: JobStatus, done: set<Step>)
    requires IsPhase(status) && status != Ready && (now == job || now == Running)
    ensures Shown(status, now, done) < Shown(doc, job, done) <==> now != Succeeded && FallsTo(status, doc, job, done)
  {
    hide *;
    ShownNow(doc, job, done);
    ShownAtPhase(status, now, done);
    TopBounds(done);
    FallsToIs(status, doc, job, done);
    MaxIs(TopProgress(done, STEPS), Floor(status));
    if Finalize in done {
      ShownTop(doc, job, done);
    }
  }

  lemma MaxIs(a: nat, b: nat)
    ensures Max(a, b) == (if a < b then b else a) && Least(a, 99) == if a < 99 then a else 99
  {}

  lemma FallsToIs(status: DocStatus, doc: DocStatus, job: JobStatus, done: set<Step>)
    ensures FallsTo(status, doc, job, done) <==>
              && Finalize !in done
              && (doc == Ready || job == Succeeded ||
                  (OnFloor(doc, job, done) && Floor(status) < Floor(Normalize(doc))))
  {}

  /** 100, or the floor of the status where that is above the receipts, or the best receipt. */
  lemma ShownNow(doc: DocStatus, job: JobStatus, done: set<Step>)
    ensures var top := TopProgress(done, STEPS);
            Shown(doc, job, done) ==
            if doc == Ready || job == Succeeded || (Finalize in done && !Final(doc)) then 100
            else if OnFloor(doc, job, done) then Floor(Normalize(doc))
            else Least(top, 99)
    ensures OnFloor(doc, job, done) ==>
              && job != Succeeded && job != Dead && job != JobFailed && !Final(doc)
              && TopProgress(done, STEPS) < Floor(Normalize(doc))
  {
    hide TopProgress, Shown, Floor, Normalize;
    ShownIs(doc, job, done);
    TopBounds(done);
  }

  lemma ShownAtPhase(status: DocStatus, job: JobStatus, done: set<Step>)
    requires IsPhase(status) && status != Ready
    ensures Shown(status, job, done) ==
            if job == Succeeded || Finalize in done then 100
            else if job == Dead || job == JobFailed then TopProgress(done, STEPS)
            else Max(TopProgress(done, STEPS), Floor(status))
    ensures Floor(status) <= 75
  {
    hide TopProgress, Shown;
    ShownIs(status, job, done);
    TopBounds(done);
  }

  /** When a document put to failed shows less, its job dead or as it was. */
  lemma FailureDrop(now: JobStatus, doc: DocStatus, job: JobStatus, done: set<Step>)
    requires now == job || now == Dead
    ensures Shown(Failed, now, done) < Shown(doc, job, done) <==>
              now != Succeeded && (OnFloor(doc, job, done) || Shown(doc, job, done) == 100)
  {
    hide TopProgress, Shown;
    ShownIs(doc, job, done);
    ShownIs(Failed, now, done);
    TopBounds(done);
  }

  /** More receipts never show less. */
  lemma ShownGrows(doc: DocStatus, job: JobStatus, done: set<Step>, more: set<Step>)
    requires done <= more
    ensures Shown(doc, job, done) <= Shown(doc, job, more)
  {
    hide TopProgress, Shown;
    ShownIs(doc, job, done);
    ShownIs(doc, job, more);
    TopBounds(done);
    TopBounds(more);
    TopProgressGrows(done, more, STEPS);
  }

  lemma TopBounds(done: set<Step>)
    ensures Finalize !in done ==> TopProgress(done, STEPS) <= 96
    ensures Finalize in done ==> TopProgress(done, STEPS) >= 100
  {
    hide TopProgress;
    if Finalize !in done {
      FloorOfHighest(Pending, done);
    } else {
      TopWithFinal(done);
    }
  }

  lemma TopWithFinal(done: set<Step>)
    requires Finalize in done
    ensures TopProgress(done, STEPS) >= 100
  {
    hide TopProgress;
    TopProgressIs(done, STEPS);
    assert StepAt(STEPS - 1) in done;
  }

  // ---------- in numbers ----------

  lemma TopStep(done: set<Step>, k: nat)
    ensures TopProgress(done, 0) == 0
    ensures TopProgress(done, k + 1) ==
            if StepAt(k) in done then Max(TopProgress(done, k), StepProgress(StepAt(k))) else TopProgress(done, k)
  {
    hide StepAt, StepProgress;
  }

  /** The best receipt is that of the latest step. */
  lemma TopIs(done: set<Step>)
    ensures TopProgress(done, STEPS) ==
            if Finalize in done then 100 else if AssetRegister in done then 96 else if TrackBWrite in done then 90
            else if TrackAWrite in done then 82 else if EmbedBatch in done then 70 else if SectionAwareChunk in done then 55
            else if ParseOutline in done then 45 else if PollAndFetchOcr in done then 35
            else if UploadToOcr in done then 15 else 0
  {
    hide TopProgress;
    TopStep(done, 0);
    TopStep(done, 1);
    TopStep(done, 2);
    TopStep(done, 3);
    TopStep(done, 4);
    TopStep(done, 5);
    TopStep(done, 6);
    TopStep(done, 7);
    TopStep(done, 8);
  }

  /** The percentage of every document, job and set of receipts. */
  lemma ShownNumbers(doc: DocStatus, job: JobStatus, done: set<Step>)
    ensures var receipts := if Finalize in done then 99 else if AssetRegister in done then 96
                            else if TrackBWrite in done then 90 else if TrackAWrite in done then 82
                            else if EmbedBatch in done then 70 else if SectionAwareChunk in done then 55
                            else if ParseOutline in done then 45 else if PollAndFetchOcr in done then 35
                            else if UploadToOcr in done then 15 else 0;
            var phase := if doc == Ocr then 8 else if doc == Embedding || doc == Parsing then 40
                         else if doc == VectorIndexing || doc == Indexing then 75 else 0;
            var over := doc == Ready || doc == Failed || doc == Disabled || doc == Deleting;
            Shown(doc, job, done) ==
            if doc == Ready || job == Succeeded || (Finalize in done && !over) then 100
            else if over || job == Dead || job == JobFailed then receipts
            else if receipts < phase then phase else receipts
  {
    hide Shown, TopProgress;
    ShownIs(doc, job, done);
    TopIs(done);
  }

  /** The status shown, in the same way. */
  lemma StatusIs(doc: DocStatus, job: JobStatus, done: set<Step>)
    ensures ShownStatus(doc, job, done) ==
            if doc == Ready || doc == Failed || doc == Disabled || doc == Deleting then doc
            else if job == Succeeded || Finalize in done then Ready
            else if job == Dead || job == JobFailed then Failed
            else if done * {TrackAWrite, TrackBWrite, AssetRegister} != {} || doc == VectorIndexing || doc == Indexing
            then VectorIndexing
            else if done * {ParseOutline, SectionAwareChunk, EmbedBatch} != {} || doc == Embedding || doc == Parsing
            then Embedding
            else if done * {UploadToOcr, PollAndFetchOcr} != {} || doc == Ocr then Ocr
            else Pending
  {
    hide HighestPhase;
    var normalized := Normalize(doc);
    if !Final(normalized) && job != Succeeded && Finalize !in done && job != Dead && job != JobFailed {
      HighestIs(if IsPhase(normalized) then normalized else Pending, done);
    }
  }

  lemma HighestIs(phase: DocStatus, done: set<Step>)
    requires IsPhase(phase) && phase != Ready && Finalize !in done
    ensures HighestPhase(phase, done, STEPS) ==
            if done * {TrackAWrite, TrackBWrite, AssetRegister} != {} || phase == VectorIndexing then VectorIndexing
            else if done * {ParseOutline, SectionAwareChunk, EmbedBatch} != {} || phase == Embedding then Embedding
            else if done * {UploadToOcr, PollAndFetchOcr} != {} || phase == Ocr then Ocr else Pending
  {
    hide HighestPhase, StepAt;
    var r := HighestPhase(phase, done, STEPS);
    HighestPhaseIs(phase, done, STEPS);
    NotYetReady(phase, done);
    forall s | s in done ensures s != Finalize && Rank(StepPhase(s)) <= Rank(r) {
      assert StepAt(IndexOf(s)) == s;
    }
    AnyOf(done, TrackAWrite, TrackBWrite, AssetRegister);
    AnyOf(done, ParseOutline, SectionAwareChunk, EmbedBatch);
    AnyOf(done, UploadToOcr, PollAndFetchOcr, PollAndFetchOcr);
    assert {UploadToOcr, PollAndFetchOcr, PollAndFetchOcr} == {UploadToOcr, PollAndFetchOcr};
    if r != phase {
      var i: nat :| i < STEPS && StepAt(i) in done && r == StepPhase(StepAt(i));
    }
  }

  lemma AnyOf(done: set<Step>, a: Step, b: Step, c: Step)
    ensures done * {a, b, c} != {} <==> a in done || b in done || c in done
  {
    if a in done || b in done || c in done {
      var x := if a in done then a else if b in done then b else c;
      assert x in done * {a, b, c};
    }
  }
}
