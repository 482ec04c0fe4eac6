/** The in-process token bucket.  Time is a real number read from the clock. */
module TokenBucket {
  import Text

  /** Settings: `RedisTokenBucket(capacity, refill_per_second)`. */
  datatype Config = Config(capacity: nat, refill: real) {
    ghost predicate Valid() {
      refill > 0.0
    }
  }

  const MIN_SLEEP := 0.05

  datatype Level = Level(tokens: real, updated: real)
  datatype Request = Request(model: string, tokens: int, now: real)

  function Min(a: real, b: real): real {
    if a < b then a else b
  }

  function Max(a: real, b: real): real {
    if a < b then b else a
  }

  /** What flows in during a stretch of time. */
  function Refill(cfg: Config, elapsed: real): real {
    elapsed * cfg.refill
  }

  lemma RefillPositive(cfg: Config, elapsed: real)
    requires cfg.Valid() && elapsed >= 0.0
    ensures Refill(cfg, elapsed) >= 0.0
  {}

  lemma RefillAdds(cfg: Config, a: real, b: real)
    ensures Refill(cfg, a) + Refill(cfg, b) == Refill(cfg, a + b)
  {}

  /** The tokens a model has at time `now`; one never seen has a full bucket. */
  function Available(cfg: Config, levels: map<string, Level>, model: string, now: real): real {
    if model !in levels then cfg.capacity as real
    else Min(cfg.capacity as real, levels[model].tokens + Refill(cfg, now - levels[model].updated))
  }

  predicate Grants(cfg: Config, levels: map<string, Level>, r: Request) {
    Available(cfg, levels, r.model, r.now) >= r.tokens as real
  }

  /** The buckets after a request. */
  function Step(cfg: Config, levels: map<string, Level>, r: Request): map<string, Level> {
    var current := Available(cfg, levels, r.model, r.now);
    levels[r.model := Level(if Grants(cfg, levels, r) then current - r.tokens as real else current, r.now)]
  }

  function Run(cfg: Config, requests: seq<Request>): map<string, Level> {
    if requests == [] then map[]
    else Step(cfg, Run(cfg, requests[..|requests| - 1]), requests[|requests| - 1])
  }

  // ---------- the code ----------

  class Bucket {
    const cfg: Config
    var localTokens: map<string, real>
    var localUpdated: map<string, real>

    ghost predicate Valid()
      reads this
    {
      cfg.Valid() && localTokens.Keys == localUpdated.Keys
    }

    ghost function Levels(): map<string, Level>
      reads this
      requires Valid()
    {
      map m | m in localTokens :: Level(localTokens[m], localUpdated[m])
    }

    constructor (cfg: Config)
      requires cfg.Valid()
      ensures Valid() && this.cfg == cfg && Levels() == map[]
    {
      this.cfg := cfg;
      localTokens := map[];
      localUpdated := map[];
    }

    /** What the bucket of a model holds at a time: full if never used, else its level then plus
        what has flowed in since, at most full. */
    ghost predicate Holds(model: string, now: real, held: real)
      requires Valid()
      reads this
    {
      var full := cfg.capacity as real;
      if model !in localTokens then held == full
      else
        var level := localTokens[model] + cfg.refill * (now - localUpdated[model]);
        held == if level < full then level else full
    }

    /** The stretch under the lock: grant, or say how long to wait. */
    method TryAcquire(model: string, tokens: int, now: real) returns (granted: bool, waitFor: real, ghost held: real)
      requires Valid()
      modifies this
      ensures Valid() && old(Holds(model, now, held))
      ensures granted <==> held >= tokens as real
      ensures localTokens == old(localTokens)[model := if granted then held - tokens as real else held]
      ensures localUpdated == old(localUpdated)[model := now]
      ensures waitFor * cfg.refill == if granted then 0.0 else tokens as real - held
      ensures Levels() == Step(cfg, old(Levels()), Request(model, tokens, now))
      ensures granted == Grants(cfg, old(Levels()), Request(model, tokens, now))
    {
      ghost var was := Levels();
      var capacity := cfg.capacity as real;
      var current := if model in localTokens then localTokens[model] else capacity;
      var updated := if model in localUpdated then localUpdated[model] else now;
      current := Min(capacity, current + Refill(cfg, now - updated));
      assert current == Available(cfg, was, model, now);
      held := current;
      if current >= tokens as real {
        localTokens := localTokens[model := current - tokens as real];
        localUpdated := localUpdated[model := now];
        return true, 0.0, held;
      }
      waitFor := (tokens as real - current) / cfg.refill;
      localTokens := localTokens[model := current];
      localUpdated := localUpdated[model := now];
      return false, waitFor, held;
    }

    /** A caller alone on its model: attempts and sleeps, the i-th sleep overrunning by
        `late[i]`, until granted or out of patience.  The bucket holds `held` at the start, the
        first sleep is to take `pause`, and `end` is the time of the last attempt. */
    method AcquireLocal(model: string, tokens: int, now: real, late: seq<real>)
      returns (granted: bool, sleeps: nat, ghost held: real, ghost pause: real, ghost end: real)
      requires Valid()
      requires forall i | 0 <= i < |late| :: late[i] >= 0.0
      modifies this
      ensures Valid() && old(Holds(model, now, held))
      ensures held >= tokens as real ==> granted && sleeps == 0 && end == now
      ensures held < tokens as real && late == [] ==> !granted && sleeps == 0 && end == now
      ensures held < tokens as real ==> IsPause(pause, tokens as real - held)
      ensures held < tokens as real <= cfg.capacity as real && late != [] ==>
                granted && sleeps == 1 && end == now + pause + late[0]
      ensures tokens > cfg.capacity ==> !granted && sleeps == |late| && end >= now + sleeps as real * 0.05
      ensures model in localTokens && localTokens == old(localTokens)[model := localTokens[model]]
      ensures localUpdated == old(localUpdated)[model := end]
      decreases |late|
    {
      hide Levels, Step, Grants, Available, Run, Max, IsPause;
      var waitFor;
      granted, waitFor, held := TryAcquire(model, tokens, now);
      pause := Max(MIN_SLEEP, waitFor);
      end := now;
      if !granted {
        Slept(tokens as real - held, waitFor, pause);
        if late != [] {
          var wake := now + Max(MIN_SLEEP, waitFor) + late[0];
          Woken(pause, late[0], tokens as real - held, now, wake);
          ghost var later, next;
          granted, sleeps, later, next, end := AcquireLocal(model, tokens, wake, late[1..]);
          sleeps := sleeps + 1;
          return;
        }
      }
      sleeps := 0;
    }

    /** The longer of 0.05 seconds and the time in which the missing tokens flow in. */
    ghost predicate IsPause(pause: real, missing: real) {
      && pause >= 0.05 && pause * cfg.refill >= missing
      && (pause == 0.05 || pause * cfg.refill == missing)
    }

    lemma Slept(missing: real, waitFor: real, pause: real)
      requires cfg.Valid() && waitFor * cfg.refill == missing && pause == Max(MIN_SLEEP, waitFor)
      ensures IsPause(pause, missing)
    {
      assert pause * cfg.refill == missing + (pause - waitFor) * cfg.refill;
    }

    /** Sleeping for the computed time, or longer, is enough. */
    lemma Woken(pause: real, late: real, missing: real, now: real, wake: real)
      requires cfg.Valid() && IsPause(pause, missing) && late >= 0.0 && wake == now + pause + late
      ensures cfg.refill * (wake - now) >= missing && wake >= now + 0.05
    {
      assert late * cfg.refill >= 0.0;
      assert cfg.refill * (wake - now) == pause * cfg.refill + late * cfg.refill;
    }
  }

  lemma AvailableAtMost(cfg: Config, levels: map<string, Level>, model: string, now: real)
    ensures Available(cfg, levels, model, now) <= cfg.capacity as real
  {}

  // ---------- bounds over runs ----------

  predicate NonDecreasing(requests: seq<Request>) {
    forall i, j | 0 <= i < j < |requests| :: requests[i].now <= requests[j].now
  }

  predicate Sensible(requests: seq<Request>) {
    forall i | 0 <= i < |requests| :: requests[i].tokens >= 0
  }

  /** Every bucket is between empty and full and was last touched in the past. */
  predicate WithinBounds(cfg: Config, levels: map<string, Level>, now: real) {
    forall m | m in levels :: 0.0 <= levels[m].tokens <= cfg.capacity as real && levels[m].updated <= now
  }

  lemma StepBounds(cfg: Config, levels: map<string, Level>, r: Request)
    requires cfg.Valid() && r.tokens >= 0 && WithinBounds(cfg, levels, r.now)
    ensures WithinBounds(cfg, Step(cfg, levels, r), r.now)
    ensures 0.0 <= Available(cfg, levels, r.model, r.now)
  {
    if r.model in levels {
      RefillPositive(cfg, r.now - levels[r.model].updated);
    }
    hide Refill;
  }

  /** Tokens stay within [0, capacity] in every run with a clock that does not go back. */
  lemma {:induction false} RunBounds(cfg: Config, requests: seq<Request>, now: real)
    requires cfg.Valid() && NonDecreasing(requests) && Sensible(requests)
    requires forall i | 0 <= i < |requests| :: requests[i].now <= now
    ensures WithinBounds(cfg, Run(cfg, requests), now)
  {
    if requests != [] {
      var n := |requests| - 1;
      var r := requests[n];
      RunBounds(cfg, requests[..n], r.now);
      StepBounds(cfg, Run(cfg, requests[..n]), r);
      hide Step, Run;
      assert Run(cfg, requests) == Step(cfg, Run(cfg, requests[..n]), r) by { RunSnoc(cfg, requests); }
    }
  }

  lemma RunSnoc(cfg: Config, requests: seq<Request>)
    requires requests != []
    ensures Run(cfg, requests) == Step(cfg, Run(cfg, requests[..|requests| - 1]), requests[|requests| - 1])
  {}

  /** Tokens granted to a model by the requests made in [from, to]. */
  function Granted(cfg: Config, requests: seq<Request>, model: string, from: real, to: real): int {
    if requests == [] then 0
    else
      var n := |requests| - 1;
      var r := requests[n];
      Granted(cfg, requests[..n], model, from, to) +
      if r.model == model && from <= r.now <= to && Grants(cfg, Run(cfg, requests[..n]), r) then r.tokens else 0
  }

  /** What is available later is at most what is available now plus the refill. */
  lemma RefillBound(cfg: Config, levels: map<string, Level>, model: string, now: real, later: real)
    requires cfg.Valid() && now <= later
    ensures Available(cfg, levels, model, later) <= Available(cfg, levels, model, now) + Refill(cfg, later - now)
  {
    RefillPositive(cfg, later - now);
    if model in levels {
      RefillAdds(cfg, now - levels[model].updated, later - now);
    }
    hide Refill;
  }

  /** One request: a grant takes its tokens out. */
  lemma StepAvailable(cfg: Config, levels: map<string, Level>, r: Request, model: string, later: real)
    requires cfg.Valid() && r.now <= later && r.tokens >= 0
    ensures Available(cfg, Step(cfg, levels, r), model, later)
            <= Available(cfg, levels, model, r.now) + Refill(cfg, later - r.now)
               - (if r.model == model && Grants(cfg, levels, r) then r.tokens as real else 0.0)
  {
    hide Refill;
    RefillPositive(cfg, later - r.now);
    if r.model != model {
      RefillBound(cfg, levels, model, r.now, later);
    }
  }

  lemma {:induction false} NoneBefore(cfg: Config, requests: seq<Request>, model: string, from: real, to: real)
    requires forall i | 0 <= i < |requests| :: requests[i].now < from
    ensures Granted(cfg, requests, model, from, to) == 0
  {
    hide Run, Grants;
    if requests != [] {
      NoneBefore(cfg, requests[..|requests| - 1], model, from, to);
    }
  }

  lemma GrantedSnoc(cfg: Config, requests: seq<Request>, model: string, from: real, to: real)
    requires requests != []
    ensures var n := |requests| - 1;
            var r := requests[n];
            Granted(cfg, requests, model, from, to) ==
            Granted(cfg, requests[..n], model, from, to) +
            if r.model == model && from <= r.now <= to && Grants(cfg, Run(cfg, requests[..n]), r) then r.tokens else 0
  {}

  /** The account of the bucket: granted since `from`, plus what is left at `now`, is at most a
      full bucket plus the refill since `from`. */
  lemma {:induction false} Account(cfg: Config, requests: seq<Request>, model: string, from: real, to: real, now: real)
    requires cfg.Valid() && NonDecreasing(requests) && Sensible(requests) && from <= now <= to
    requires forall i | 0 <= i < |requests| :: requests[i].now <= now
    ensures Granted(cfg, requests, model, from, to) as real + Available(cfg, Run(cfg, requests), model, now)
            <= cfg.capacity as real + Refill(cfg, now - from)
  {
    RefillPositive(cfg, now - from);
    hide Refill;
    if requests != [] {
      var n := |requests| - 1;
      var r := requests[n];
      hide Run, Granted, Step, Available, Grants;
      AvailableAtMost(cfg, Run(cfg, requests), model, now);
      if r.now < from {
        NoneBefore(cfg, requests, model, from, to);
      } else {
        Account(cfg, requests[..n], model, from, to, r.now);
        RunSnoc(cfg, requests);
        GrantedSnoc(cfg, requests, model, from, to);
        StepAvailable(cfg, Run(cfg, requests[..n]), r, model, now);
        RefillAdds(cfg, r.now - from, now - r.now);
        assert now - from == (r.now - from) + (now - r.now);
      }
    }
  }

  /** In any window [from, to] a model is granted at most a full bucket plus the refill of the
      window. */
  lemma {:induction false} WindowBound(cfg: Config, requests: seq<Request>, model: string, from: real, to: real)
    requires cfg.Valid() && NonDecreasing(requests) && Sensible(requests) && from <= to
    ensures Granted(cfg, requests, model, from, to) as real <= cfg.capacity as real + cfg.refill * (to - from)
  {
    RefillPositive(cfg, to - from);
    assert Refill(cfg, to - from) == cfg.refill * (to - from);
    hide Refill;
    if requests != [] {
      var n := |requests| - 1;
      hide Run, Grants, Available;
      if requests[n].now > to {
        WindowBound(cfg, requests[..n], model, from, to);
      } else {
        Account(cfg, requests, model, from, to, to);
        RunBounds(cfg, requests, to);
        AvailableIn(cfg, Run(cfg, requests), model, to);
      }
    }
  }

  function Asked(requests: seq<Request>, at: seq<nat>): int
    requires Text.Positions(at, |requests|)
  {
    if at == [] then 0
    else Asked(requests, at[..|at| - 1]) + requests[at[|at| - 1]].tokens
  }

  /** The request at a position is one of the model's in the window and granted when it came. */
  predicate GrantedAt(cfg: Config, requests: seq<Request>, model: string, from: real, to: real, i: nat)
    requires i < |requests|
  {
    requests[i].model == model && from <= requests[i].now <= to && Grants(cfg, Run(cfg, requests[..i]), requests[i])
  }

  lemma {:induction false} GrantedCovers(cfg: Config, requests: seq<Request>, model: string, from: real, to: real,
                                         n: nat, at: seq<nat>)
    requires n <= |requests| && Sensible(requests) && Text.Positions(at, |requests|)
    requires forall k | 0 <= k < |at| :: at[k] < n && GrantedAt(cfg, requests, model, from, to, at[k])
    ensures Asked(requests, at) <= Granted(cfg, requests[..n], model, from, to)
  {
    hide Run, Grants, Granted;
    if n == 0 {
      NoneBefore(cfg, requests[..n], model, from, to);
    } else {
      GrantedSnoc(cfg, requests[..n], model, from, to);
      assert requests[..n][..n - 1] == requests[..n - 1];
      if at != [] && at[|at| - 1] == n - 1 {
        GrantedCovers(cfg, requests, model, from, to, n - 1, at[..|at| - 1]);
      } else {
        GrantedCovers(cfg, requests, model, from, to, n - 1, at);
      }
    }
  }

  /** The same said of the requests themselves: any that are granted to a model in the window
      add up to no more. */
  lemma WindowSum(cfg: Config, requests: seq<Request>, model: string, from: real, to: real, at: seq<nat>)
    requires cfg.Valid() && NonDecreasing(requests) && Sensible(requests) && from <= to
    requires Text.Positions(at, |requests|)
    requires forall k | 0 <= k < |at| :: GrantedAt(cfg, requests, model, from, to, at[k])
    ensures Asked(requests, at) as real <= cfg.capacity as real + cfg.refill * (to - from)
  {
    hide Granted, GrantedAt;
    WindowBound(cfg, requests, model, from, to);
    assert requests[..|requests|] == requests;
    GrantedCovers(cfg, requests, model, from, to, |requests|, at);
  }

  lemma AvailableIn(cfg: Config, levels: map<string, Level>, model: string, now: real)
    requires cfg.Valid() && WithinBounds(cfg, levels, now)
    ensures Available(cfg, levels, model, now) >= 0.0
  {
    if model in levels {
      RefillPositive(cfg, now - levels[model].updated);
    }
    hide Refill;
  }

  /** Requests for more than the capacity are never granted. */
  lemma TooMuchIsNeverGranted(cfg: Config, levels: map<string, Level>, r: Request)
    requires r.tokens > cfg.capacity
    ensures !Grants(cfg, levels, r)
  {
    AvailableAtMost(cfg, levels, r.model, r.now);
  }
}
