/** The OCR service: a bounded priority queue of sessions and one worker. */
module OcrQueue {
  import opened Wrappers

  type Id = string

  datatype Status = Queued | Running | Completed | Failed
  datatype Stage = AtQueue | Rendering | Inferring | PostProcessing

  /** `SessionMeta`, as written to disk. */
  datatype Meta = Meta(priority: int, status: Status, stage: Stage, progress: nat,
                       pageCount: Option<nat>, error: Option<string>)

  /** An entry of the queue, compared as a tuple. */
  datatype Ticket = Ticket(priority: int, queuedAt: real, id: Id)

  /** What the worker is at: the OCR call, or the callback after a terminal status. */
  datatype Point = Processing | Calling
  datatype Active = Active(id: Id, point: Point)

  const QUEUE_FULL := "queue_full"

  // ---------- the order of tickets ----------

  function CompareIds(a: Id, b: Id): int {
    if a == "" && b == "" then 0
    else if a == "" then -1
    else if b == "" then 1
    else if a[0] != b[0] then a[0] as int - b[0] as int
    else CompareIds(a[1..], b[1..])
  }

  predicate Before(a: Ticket, b: Ticket) {
    || a.priority < b.priority
    || (a.priority == b.priority && a.queuedAt < b.queuedAt)
    || (a.priority == b.priority && a.queuedAt == b.queuedAt && CompareIds(a.id, b.id) <= 0)
  }

  /** a stands before b in the order of the characters: it ends, or has the smaller character,
      where they first differ. */
  ghost predicate Precedes(a: Id, b: Id) {
    exists k: nat :: k <= |a| && k < |b| && a[..k] == b[..k] && (k == |a| || a[k] < b[k])
  }

  lemma PrecedesTail(a: Id, b: Id)
    requires a != "" && b != "" && a[0] == b[0]
    ensures Precedes(a, b) <==> Precedes(a[1..], b[1..])
  {
    if Precedes(a[1..], b[1..]) {
      var k: nat :| k <= |a[1..]| && k < |b[1..]| && a[1..][..k] == b[1..][..k]
        && (k == |a[1..]| || a[1..][k] < b[1..][k]);
      assert a[..k + 1] == [a[0]] + a[1..][..k] && b[..k + 1] == [b[0]] + b[1..][..k];
    }
    if Precedes(a, b) {
      var k: nat :| k <= |a| && k < |b| && a[..k] == b[..k] && (k == |a| || a[k] < b[k]);
      assert k > 0;
      assert a[1..][..k - 1] == a[..k][1..] && b[1..][..k - 1] == b[..k][1..];
    }
  }

  lemma PrecedesHead(a: Id, b: Id)
    requires a == "" || b == "" || a[0] != b[0]
    ensures Precedes(a, b) <==> b != "" && (a == "" || a[0] < b[0])
  {
    assert a[..0] == b[..0];
    forall k: nat | 0 < k <= |a| && k <= |b| ensures a[..k] == b[..k] ==> a[0] == b[0] {
      assert a[..k][0] == a[0] && b[..k][0] == b[0];
    }
  }

  lemma {:induction false} IdOrder(a: Id, b: Id)
    ensures CompareIds(a, b) < 0 <==> Precedes(a, b)
  {
    hide Precedes;
    if a == "" || b == "" || a[0] != b[0] {
      PrecedesHead(a, b);
    } else {
      PrecedesTail(a, b);
      IdOrder(a[1..], b[1..]);
    }
  }

  /** Tickets are compared by priority, then by time, then by id. */
  lemma BeforeIs(a: Ticket, b: Ticket)
    ensures Before(a, b) <==>
              || a == b || a.priority < b.priority
              || (a.priority == b.priority && a.queuedAt < b.queuedAt)
              || (a.priority == b.priority && a.queuedAt == b.queuedAt && Precedes(a.id, b.id))
  {
    IdOrder(a.id, b.id);
    CompareFlips(a.id, b.id);
    hide Precedes;
  }

  lemma {:induction false} CompareFlips(a: Id, b: Id)
    ensures CompareIds(a, b) == -CompareIds(b, a)
    ensures CompareIds(a, b) == 0 ==> a == b
  {
    if a != "" && b != "" && a[0] == b[0] {
      CompareFlips(a[1..], b[1..]);
      assert a == [a[0]] + a[1..] && b == [b[0]] + b[1..];
    }
  }

  lemma {:induction false} CompareChains(a: Id, b: Id, c: Id)
    requires CompareIds(a, b) <= 0 && CompareIds(b, c) <= 0
    ensures CompareIds(a, c) <= 0
  {
    if a != "" && b != "" && c != "" && a[0] == b[0] == c[0] {
      CompareChains(a[1..], b[1..], c[1..]);
    }
  }

  lemma BeforeTotal(a: Ticket, b: Ticket)
    ensures Before(a, b) || Before(b, a)
    ensures Before(a, b) && Before(b, a) ==> a == b
  {
    CompareFlips(a.id, b.id);
  }

  lemma BeforeChains(a: Ticket, b: Ticket, c: Ticket)
    requires Before(a, b) && Before(b, c)
    ensures Before(a, c)
  {
    if CompareIds(a.id, b.id) <= 0 && CompareIds(b.id, c.id) <= 0 {
      CompareChains(a.id, b.id, c.id);
    }
  }

  /** The position of the least ticket. */
  function LeastAt(queue: seq<Ticket>): (i: nat)
    requires queue != []
    ensures i < |queue|
  {
    var n := |queue| - 1;
    if n == 0 then 0
    else
      var i := LeastAt(queue[..n]);
      if Before(queue[i], queue[n]) then i else n
  }

  lemma {:induction false} LeastIsLeast(queue: seq<Ticket>)
    requires queue != []
    ensures forall k | 0 <= k < |queue| :: Before(queue[LeastAt(queue)], queue[k])
  {
    hide Before;
    var n := |queue| - 1;
    BeforeTotal(queue[n], queue[n]);
    if n > 0 {
      LeastIsLeast(queue[..n]);
      var i := LeastAt(queue[..n]);
      BeforeTotal(queue[i], queue[n]);
      forall k | 0 <= k < |queue|
        ensures Before(queue[LeastAt(queue)], queue[k])
      {
        if k < n {
          assert Before(queue[..n][i], queue[..n][k]);
          if !Before(queue[i], queue[n]) {
            BeforeChains(queue[n], queue[i], queue[k]);
          }
        }
      }
    }
  }

  // ---------- the service as a state machine ----------

  datatype State = State(queue: seq<Ticket>, active: Option<Active>, metas: map<Id, Meta>)

  datatype Event =
    | Upload(id: Id, priority: int, now: real)
    | Take
    | Returned(pageCount: nat)
    | Raised(error: string, late: bool)
    | CalledBack

  /** `QUEUE_SIZE`; a size of zero means no bound. */
  predicate Full(size: nat, queue: seq<Ticket>) {
    0 < size <= |queue|
  }

  predicate Enabled(s: State, e: Event) {
    match e
    case Upload(id, _, _) => id !in s.metas
    case Take => s.active.None? && s.queue != [] && s.queue[LeastAt(s.queue)].id in s.metas
    case Returned(_) => s.active.Some? && s.active.value.point == Processing && s.active.value.id in s.metas
    case Raised(_, _) => s.active.Some? && s.active.value.point == Processing && s.active.value.id in s.metas
    case CalledBack => s.active.Some? && s.active.value.point == Calling
  }

  function NewMeta(priority: int): Meta {
    Meta(priority, Queued, AtQueue, 0, None, None)
  }

  /** What `_write_meta` writes during an event, in order. */
  function Writes(size: nat, s: State, e: Event): seq<Meta>
    requires Enabled(s, e)
  {
    match e
    case Upload(id, priority, _) =>
      [NewMeta(priority)] +
      if Full(size, s.queue) then [NewMeta(priority).(status := Failed, error := Some(QUEUE_FULL))] else []
    case Take =>
      var m := s.metas[s.queue[LeastAt(s.queue)].id];
      [m.(status := Running, stage := Rendering, progress := 5),
       m.(status := Running, stage := Inferring, progress := 30)]
    case Returned(pages) =>
      var m := s.metas[s.active.value.id].(stage := PostProcessing, progress := 90, pageCount := Some(pages));
      [m, m.(status := Completed, progress := 100)]
    case Raised(error, late) =>
      var m := s.metas[s.active.value.id];
      [(if late then m.(stage := PostProcessing, progress := 90) else m).(status := Failed, error := Some(error))]
    case CalledBack => []
  }

  datatype Write = Write(id: Id, meta: Meta)

  function About(id: Id, metas: seq<Meta>): (r: seq<Write>)
    ensures |r| == |metas|
  {
    seq(|metas|, i requires 0 <= i < |metas| => Write(id, metas[i]))
  }

  /** The session an event writes about. */
  function Subject(s: State, e: Event): Id
    requires Enabled(s, e)
  {
    match e
    case Upload(id, _, _) => id
    case Take => s.queue[LeastAt(s.queue)].id
    case Returned(_) => s.active.value.id
    case Raised(_, _) => s.active.value.id
    case CalledBack => s.active.value.id
  }

  function Without(queue: seq<Ticket>, i: nat): seq<Ticket>
    requires i < |queue|
  {
    queue[..i] + queue[i + 1..]
  }

  function Apply(size: nat, s: State, e: Event): State {
    if !Enabled(s, e) then s
    else
      var written := Writes(size, s, e);
      var metas := if written == [] then s.metas else s.metas[Subject(s, e) := written[|written| - 1]];
      match e
      case Upload(id, priority, now) =>
        State(if Full(size, s.queue) then s.queue else s.queue + [Ticket(priority, now, id)], s.active, metas)
      case Take => State(Without(s.queue, LeastAt(s.queue)), Some(Active(Subject(s, e), Processing)), metas)
      case Returned(_) => State(s.queue, Some(Active(s.active.value.id, Calling)), metas)
      case Raised(_, _) => State(s.queue, Some(Active(s.active.value.id, Calling)), metas)
      case CalledBack => State(s.queue, None, metas)
  }

  function Run(size: nat, events: seq<Event>): State {
    if events == [] then State([], None, map[]) else Apply(size, Run(size, events[..|events| - 1]), events[|events| - 1])
  }

  // ---------- the code ----------

  class OcrService {
    const size: nat
    var taskQueue: seq<Ticket>
    var activeSessions: set<Id>
    var worker: Option<Active>
    var metas: map<Id, Meta>
    ghost var log: seq<Write>

    constructor (size: nat)
      ensures this.size == size && Valid() && Now() == State([], None, map[]) && log == []
    {
      log := [];
      this.size := size;
      taskQueue := [];
      activeSessions := {};
      worker := None;
      metas := map[];
    }

    /** The active sessions are the worker's. */
    ghost predicate Valid()
      reads this
    {
      activeSessions == if worker.Some? then {worker.value.id} else {}
    }

    ghost function Now(): State
      reads this
    {
      State(taskQueue, worker, metas)
    }

    method WriteMeta(id: Id, meta: Meta)
      modifies this`metas, this`log
      ensures metas == old(metas)[id := meta] && log == old(log) + [Write(id, meta)]
    {
      metas := metas[id := meta];
      log := log + [Write(id, meta)];
    }

    /** `upload_pdf`: the session is written first and marked failed when the queue is full. */
    method UploadPdf(id: Id, priority: int, now: real) returns (accepted: bool)
      requires Valid() && id !in metas
      modifies this`metas, this`taskQueue, this`log
      ensures Valid() && Now() == Apply(size, old(Now()), Upload(id, priority, now))
      ensures log == old(log) + About(id, Writes(size, old(Now()), Upload(id, priority, now)))
      ensures accepted <==> size == 0 || |old(taskQueue)| < size
      ensures taskQueue == old(taskQueue) + if accepted then [Ticket(priority, now, id)] else []
      ensures var entered := Meta(priority, Queued, AtQueue, 0, None, None);
              var refused := Meta(priority, Failed, AtQueue, 0, None, Some("queue_full"));
              log == old(log) + [Write(id, entered)] + if accepted then [] else [Write(id, refused)]
    {
      var meta := NewMeta(priority);
      WriteMeta(id, meta);
      if size > 0 && |taskQueue| >= size {
        meta := meta.(status := Failed, error := Some(QUEUE_FULL));
        WriteMeta(id, meta);
        return false;
      }
      taskQueue := taskQueue + [Ticket(priority, now, id)];
      return true;
    }

    /** `task_queue.get()`: the least ticket, found by comparing. */
    method Get() returns (t: Ticket)
      requires taskQueue != []
      modifies this`taskQueue
      ensures t == old(taskQueue)[LeastAt(old(taskQueue))]
      ensures taskQueue == Without(old(taskQueue), LeastAt(old(taskQueue)))
    {
      var least := 0;
      for n := 1 to |taskQueue|
        invariant 0 <= least < n && least == LeastAt(taskQueue[..n])
      {
        assert taskQueue[..n + 1][..n] == taskQueue[..n];
        if !Before(taskQueue[least], taskQueue[n]) {
          least := n;
        }
      }
      assert taskQueue[..|taskQueue|] == taskQueue;
      t := taskQueue[least];
      taskQueue := taskQueue[..least] + taskQueue[least + 1..];
    }

    /** The worker takes a session and runs it up to the call of the OCR model. */
    method TakeSession()
      requires Valid() && Enabled(Now(), Take)
      modifies this
      ensures Valid() && Now() == Apply(size, old(Now()), Take)
      ensures log == old(log) + About(Subject(old(Now()), Take), Writes(size, old(Now()), Take))
      ensures worker.Some? && worker.value.point == Processing && worker.value.id in old(metas)
      ensures var id, meta := worker.value.id, old(metas)[worker.value.id].(status := Running);
              && metas == old(metas)[id := meta.(stage := Inferring, progress := 30)]
              && log == old(log) + [Write(id, meta.(stage := Rendering, progress := 5)),
                                    Write(id, meta.(stage := Inferring, progress := 30))]
    {
      var t := Get();
      activeSessions := activeSessions + {t.id};
      worker := Some(Active(t.id, Processing));
      var meta := metas[t.id].(status := Running, stage := Rendering, progress := 5);
      WriteMeta(t.id, meta);
      meta := meta.(stage := Inferring, progress := 30);
      WriteMeta(t.id, meta);
    }

    /** The OCR model has answered. */
    method FinishSession(pageCount: nat)
      requires Valid() && Enabled(Now(), Returned(pageCount))
      modifies this
      ensures Valid() && Now() == Apply(size, old(Now()), Returned(pageCount))
      ensures log == old(log) + About(old(worker).value.id, Writes(size, old(Now()), Returned(pageCount)))
      ensures var id := old(worker).value.id;
              var meta := old(metas)[id].(stage := PostProcessing, pageCount := Some(pageCount));
              && worker == Some(Active(id, Calling)) && taskQueue == old(taskQueue)
              && metas == old(metas)[id := meta.(status := Completed, progress := 100)]
              && log == old(log) + [Write(id, meta.(progress := 90)),
                                    Write(id, meta.(status := Completed, progress := 100))]
    {
      var id := worker.value.id;
      var meta := metas[id].(stage := PostProcessing, progress := 90, pageCount := Some(pageCount));
      WriteMeta(id, meta);
      meta := meta.(status := Completed, progress := 100);
      WriteMeta(id, meta);
      worker := Some(Active(id, Calling));
    }

    /** It, or what follows it, has raised. */
    method FailSession(error: string, late: bool)
      requires Valid() && Enabled(Now(), Raised(error, late))
      modifies this
      ensures Valid() && Now() == Apply(size, old(Now()), Raised(error, late))
      ensures log == old(log) + About(old(worker).value.id, Writes(size, old(Now()), Raised(error, late)))
      ensures var id := old(worker).value.id;
              var meta := old(metas)[id].(status := Failed, error := Some(error));
              && worker == Some(Active(id, Calling)) && taskQueue == old(taskQueue)
              && metas == old(metas)[id := if late then meta.(stage := PostProcessing, progress := 90) else meta]
              && log == old(log) + [Write(id, metas[id])]
    {
      var id := worker.value.id;
      var meta := metas[id];
      if late {
        meta := meta.(stage := PostProcessing, progress := 90);
      }
      meta := meta.(status := Failed, error := Some(error));
      WriteMeta(id, meta);
      worker := Some(Active(id, Calling));
    }

    /** The callback has been sent, or has failed, which nobody notices. */
    method EndSession()
      requires Valid() && Enabled(Now(), CalledBack)
      modifies this
      ensures Valid() && Now() == Apply(size, old(Now()), CalledBack)
      ensures worker == None && metas == old(metas) && taskQueue == old(taskQueue) && log == old(log)
    {
      activeSessions := activeSessions - {worker.value.id};
      worker := None;
    }
  }

  // ---------- what every run keeps ----------

  predicate Terminal(s: Status) {
    s == Completed || s == Failed
  }

  ghost predicate InQueue(s: State, id: Id) {
    exists i :: 0 <= i < |s.queue| && s.queue[i].id == id
  }

  predicate IsActive(s: State, id: Id) {
    s.active.Some? && s.active.value.id == id
  }

  ghost predicate QueueOk(queue: seq<Ticket>) {
    forall i, j | 0 <= i < j < |queue| :: queue[i].id != queue[j].id
  }

  /** Where a session is, by its status. */
  ghost predicate Placed(s: State, id: Id)
    requires id in s.metas
  {
    match s.metas[id].status
    case Queued => InQueue(s, id) && !IsActive(s, id) && s.metas[id].progress == 0
    case Running => !InQueue(s, id) && IsActive(s, id) && s.active.value.point == Processing && s.metas[id].progress == 30
    case _ => !InQueue(s, id) && (IsActive(s, id) ==> s.active.value.point == Calling)
  }

  ghost predicate Inv(size: nat, s: State) {
    && QueueOk(s.queue)
    && (size > 0 ==> |s.queue| <= size)
    && (forall i | 0 <= i < |s.queue| :: s.queue[i].id in s.metas)
    && (s.active.Some? ==> s.active.value.id in s.metas)
    && (forall id | id in s.metas :: Placed(s, id))
  }

  lemma WithoutIs(queue: seq<Ticket>, i: nat, id: Id)
    requires QueueOk(queue) && i < |queue|
    ensures QueueOk(Without(queue, i))
    ensures (exists k :: 0 <= k < |Without(queue, i)| && Without(queue, i)[k].id == id) <==>
            id != queue[i].id && exists k :: 0 <= k < |queue| && queue[k].id == id
  {
    var rest := Without(queue, i);
    forall k | 0 <= k < |queue| && k != i
      ensures exists m :: 0 <= m < |rest| && rest[m] == queue[k]
    {
      assert rest[if k < i then k else k - 1] == queue[k];
    }
    forall m | 0 <= m < |rest|
      ensures rest[m] == queue[if m < i then m else m + 1]
    {}
  }

  lemma AppendIs(queue: seq<Ticket>, t: Ticket, id: Id)
    ensures (exists k :: 0 <= k < |queue + [t]| && (queue + [t])[k].id == id) <==>
            id == t.id || exists k :: 0 <= k < |queue| && queue[k].id == id
  {
    var now := queue + [t];
    assert now[|queue|] == t;
    if k :| 0 <= k < |queue| && queue[k].id == id {
      assert now[k].id == id;
    }
  }

  lemma UploadKeeps(size: nat, s: State, id: Id, priority: int, now: real)
    requires Inv(size, s) && id !in s.metas
    ensures Inv(size, Apply(size, s, Upload(id, priority, now)))
  {
    var after := Apply(size, s, Upload(id, priority, now));
    forall x | x in after.metas
      ensures Placed(after, x)
    {
      AppendIs(s.queue, Ticket(priority, now, id), x);
      if x != id {
        assert Placed(s, x);
      }
    }
  }

  lemma TakePlaces(size: nat, s: State, x: Id)
    requires Inv(size, s) && Enabled(s, Take) && x in s.metas
    ensures x in Apply(size, s, Take).metas && Placed(Apply(size, s, Take), x)
  {
    var i := LeastAt(s.queue);
    WithoutIs(s.queue, i, x);
    assert Placed(s, x);
    assert InQueue(s, s.queue[i].id) && Placed(s, s.queue[i].id);
    hide LeastAt, Without, QueueOk;
  }

  lemma TakeKeeps(size: nat, s: State)
    requires Inv(size, s) && Enabled(s, Take)
    ensures Inv(size, Apply(size, s, Take))
  {
    hide LeastAt, Placed;
    var after, i := Apply(size, s, Take), LeastAt(s.queue);
    WithoutIs(s.queue, i, s.queue[i].id);
    forall x | x in after.metas
      ensures Placed(after, x)
    {
      TakePlaces(size, s, x);
    }
    forall k | 0 <= k < |after.queue|
      ensures after.queue[k].id in after.metas
    {
      assert after.queue[k] == s.queue[if k < i then k else k + 1];
    }
  }

  lemma WorkKeeps(size: nat, s: State, e: Event)
    requires Inv(size, s) && Enabled(s, e) && !e.Upload? && !e.Take?
    ensures Inv(size, Apply(size, s, e))
  {
    var after := Apply(size, s, e);
    forall x | x in after.metas
      ensures Placed(after, x)
    {
      assert Placed(s, x);
      assert InQueue(after, x) <==> InQueue(s, x);
    }
  }

  lemma {:induction false} RunKeeps(size: nat, events: seq<Event>)
    ensures Inv(size, Run(size, events))
  {
    if events != [] {
      hide Inv, Apply, Enabled;
      var n := |events| - 1;
      var s, e := Run(size, events[..n]), events[n];
      RunKeeps(size, events[..n]);
      if Enabled(s, e) {
        match e
        case Upload(id, priority, now) => FreshId(s, e); UploadKeeps(size, s, id, priority, now);
        case Take => TakeKeeps(size, s);
        case _ => WorkKeeps(size, s, e);
      } else {
        Disabled(size, s, e);
      }
    } else {
      NothingYet(size);
    }
  }

  lemma FreshId(s: State, e: Event)
    requires Enabled(s, e) && e.Upload?
    ensures e.id !in s.metas
  {}

  lemma Disabled(size: nat, s: State, e: Event)
    requires !Enabled(s, e)
    ensures Apply(size, s, e) == s
  {}

  lemma NothingYet(size: nat)
    ensures Inv(size, State([], None, map[]))
  {}

  /** Queue safety: in every run each session is in exactly one of queue, active and terminal;
      one at most is active; and the queue stays within its size. */
  lemma EverySessionHasOnePlace(size: nat, events: seq<Event>, id: Id)
    requires id in Run(size, events).metas
    ensures var s := Run(size, events);
            && (size > 0 ==> |s.queue| <= size)
            && (InQueue(s, id) <==> s.metas[id].status == Queued)
            && (IsActive(s, id) && s.active.value.point == Processing <==> s.metas[id].status == Running)
            && !(InQueue(s, id) && IsActive(s, id))
            && (InQueue(s, id) || IsActive(s, id) || Terminal(s.metas[id].status))
  {
    RunKeeps(size, events);
    assert Placed(Run(size, events), id);
    hide Run, InQueue;
  }

  /** The session dispatched is the least of all waiting, and leaves the queue. */
  lemma DispatchTakesLeast(size: nat, events: seq<Event>)
    requires var s := Run(size, events); s.active.None? && s.queue != []
    ensures var s, next := Run(size, events), Apply(size, Run(size, events), Take);
            && Enabled(s, Take)
            && next.active == Some(Active(s.queue[LeastAt(s.queue)].id, Processing))
            && (forall k | 0 <= k < |s.queue| :: Before(s.queue[LeastAt(s.queue)], s.queue[k]))
            && !InQueue(next, s.queue[LeastAt(s.queue)].id)
            && (forall id | id != s.queue[LeastAt(s.queue)].id :: InQueue(next, id) <==> InQueue(s, id))
  {
    var s := Run(size, events);
    var i := LeastAt(s.queue);
    RunKeeps(size, events);
    LeastIsLeast(s.queue);
    assert s.queue[i].id in s.metas;
    hide Run, LeastAt, Before;
    forall id
      ensures InQueue(Apply(size, s, Take), id) <==> id != s.queue[i].id && InQueue(s, id)
    {
      WithoutIs(s.queue, i, id);
    }
  }

  /** In every run: whoever waits behind the session dispatched has a lower priority, or came
      later, or has a later id. */
  lemma FirstComeFirstServed(size: nat, events: seq<Event>, k: nat)
    requires var s := Run(size, events); s.active.None? && k < |s.queue|
    ensures var s, next := Run(size, events), Apply(size, Run(size, events), Take);
            && next.active.Some?
            && exists t :: t in s.queue && t.id == next.active.value.id &&
                 var u := s.queue[k];
                 || t == u || t.priority < u.priority
                 || (t.priority == u.priority && t.queuedAt < u.queuedAt)
                 || (t.priority == u.priority && t.queuedAt == u.queuedAt && Precedes(t.id, u.id))
  {
    var s := Run(size, events);
    DispatchTakesLeast(size, events);
    var t := s.queue[LeastAt(s.queue)];
    BeforeIs(t, s.queue[k]);
    hide Run, LeastAt, Before, Precedes;
    assert t in s.queue;
  }

  // ---------- what is written about a session ----------

  /** All writes of a run, in order. */
  function Trace(size: nat, events: seq<Event>): seq<Write> {
    if events == [] then []
    else
      var n := |events| - 1;
      var s, e := Run(size, events[..n]), events[n];
      Trace(size, events[..n]) + if Enabled(s, e) then About(Subject(s, e), Writes(size, s, e)) else []
  }

  function Rank(s: Status): nat {
    if s == Queued then 0 else if s == Running then 1 else 2
  }

  /** Status and progress never go back, and nothing follows a terminal status. */
  predicate Leads(a: Meta, b: Meta) {
    Rank(a.status) <= Rank(b.status) && a.progress <= b.progress && (Terminal(a.status) ==> a == b)
  }

  ghost predicate Ordered(trace: seq<Write>) {
    forall i, j | 0 <= i < j < |trace| && trace[i].id == trace[j].id :: Leads(trace[i].meta, trace[j].meta)
  }

  ghost predicate Recorded(trace: seq<Write>, metas: map<Id, Meta>) {
    forall i | 0 <= i < |trace| :: trace[i].id in metas && Leads(trace[i].meta, metas[trace[i].id])
  }

  ghost predicate Chain(ms: seq<Meta>) {
    forall i, j | 0 <= i < j < |ms| :: Leads(ms[i], ms[j])
  }

  /** The writes of one event follow what was written before. */
  lemma WritesLead(size: nat, s: State, e: Event)
    requires Inv(size, s) && Enabled(s, e)
    ensures var w := Writes(size, s, e);
            && Chain(w)
            && (Subject(s, e) in s.metas ==> forall i | 0 <= i < |w| :: Leads(s.metas[Subject(s, e)], w[i]))
  {
    if !e.Upload? && e != CalledBack {
      if e.Take? {
        var i := LeastAt(s.queue);
        assert s.queue[i].id in s.metas && InQueue(s, s.queue[i].id);
      }
      assert Placed(s, Subject(s, e));
    }
    hide LeastAt;
  }

  lemma TraceGrows(trace: seq<Write>, metas: map<Id, Meta>, id: Id, w: seq<Meta>)
    requires Ordered(trace) && Recorded(trace, metas) && Chain(w) && w != []
    requires id in metas ==> forall i | 0 <= i < |w| :: Leads(metas[id], w[i])
    ensures Ordered(trace + About(id, w)) && Recorded(trace + About(id, w), metas[id := w[|w| - 1]])
  {
    var all, last := trace + About(id, w), w[|w| - 1];
    forall i, j | 0 <= i < j < |all| && all[i].id == all[j].id
      ensures Leads(all[i].meta, all[j].meta)
    {
      if |trace| <= j && i < |trace| {
        assert Leads(trace[i].meta, metas[id]) && Leads(metas[id], w[j - |trace|]);
      }
    }
    forall i | 0 <= i < |all|
      ensures all[i].id in metas[id := last] && Leads(all[i].meta, metas[id := last][all[i].id])
    {
      if i < |trace| {
        assert Leads(trace[i].meta, metas[trace[i].id]);
      } else if i < |all| - 1 {
        assert Leads(w[i - |trace|], last);
      }
    }
  }

  lemma {:induction false} TraceOrdered(size: nat, events: seq<Event>)
    ensures Ordered(Trace(size, events)) && Recorded(Trace(size, events), Run(size, events).metas)
  {
    if events != [] {
      hide Ordered, Recorded, Inv, Enabled, Chain, Leads, About;
      var n := |events| - 1;
      var s, e := Run(size, events[..n]), events[n];
      TraceOrdered(size, events[..n]);
      RunKeeps(size, events[..n]);
      var before := Trace(size, events[..n]);
      if Enabled(s, e) {
        WritesLead(size, s, e);
        MetasAfter(size, s, e);
        if Writes(size, s, e) != [] {
          TraceGrows(before, s.metas, Subject(s, e), Writes(size, s, e));
        } else {
          AboutNothing(Subject(s, e));
          assert before + [] == before;
        }
      } else {
        Disabled(size, s, e);
        assert before + [] == before;
      }
      hide Writes, Subject;
    }
  }

  lemma AboutNothing(id: Id)
    ensures About(id, []) == []
  {}

  lemma MetasAfter(size: nat, s: State, e: Event)
    requires Enabled(s, e)
    ensures var w := Writes(size, s, e);
            Apply(size, s, e).metas == if w == [] then s.metas else s.metas[Subject(s, e) := w[|w| - 1]]
  {
    hide Writes, Subject, LeastAt;
  }

  /** Whatever is written about a session over a run, its status only moves from queued to
      running to completed or failed, its progress never falls, and a terminal status stands. */
  lemma StatusOnlyMovesForward(size: nat, events: seq<Event>, i: nat, j: nat)
    requires i < j < |Trace(size, events)| && Trace(size, events)[i].id == Trace(size, events)[j].id
    ensures Leads(Trace(size, events)[i].meta, Trace(size, events)[j].meta)
    ensures var a, b := Trace(size, events)[i].meta, Trace(size, events)[j].meta;
            && a.progress <= b.progress && (b.status == Queued ==> a.status == Queued)
            && (a.status == Completed || a.status == Failed ==> a == b)
  {
    TraceOrdered(size, events);
    hide Trace;
  }

  /** An upload that finds the queue full is failed and never dispatched. */
  lemma RejectedIsFailed(size: nat, events: seq<Event>, id: Id, priority: int, now: real)
    requires var s := Run(size, events); id !in s.metas && Full(size, s.queue)
    ensures var after := Apply(size, Run(size, events), Upload(id, priority, now));
            && after.queue == Run(size, events).queue && id in after.metas
            && after.metas[id].status == Failed && after.metas[id].error == Some(QUEUE_FULL)
            && !InQueue(after, id)
  {
    RunKeeps(size, events);
    hide Run;
  }
}
